/** The two string builders of the client: the `searchIn` scope of `lookup`,
    and the literal query text `search` makes from a query builder's SQL and
    bindings. */
module QueryText {
  import opened Wire

  // ---------------------------------------------------------------- lookup

  function Quote(column: string): string {
    "\"" + column + "\""
  }

  /** `join(",", map(quote, columns))`, the reference for the loop below. */
  function JoinQuoted(columns: seq<string>): string
    decreases |columns|
  {
    if |columns| == 0 then ""
    else if |columns| == 1 then Quote(columns[0])
    else JoinQuoted(columns[..|columns| - 1]) + "," + Quote(columns[|columns| - 1])
  }

  /** What the `foreach` of `lookup` has built after the given columns: each
      quoted column followed by a comma. */
  function Terminated(columns: seq<string>): string
    decreases |columns|
  {
    if columns == [] then ""
    else Terminated(columns[..|columns| - 1]) + Quote(columns[|columns| - 1]) + ","
  }

  lemma {:induction false} TerminatedIsJoinedWithComma(columns: seq<string>)
    requires columns != []
    ensures Terminated(columns) == JoinQuoted(columns) + ","
    decreases |columns|
  {
    var init := columns[..|columns| - 1];
    var q := Quote(columns[|columns| - 1]);
    if init == [] {
      assert Terminated(columns) == "" + q + ",";
      assert "" + q == q;
    } else {
      TerminatedIsJoinedWithComma(init);
      var j := JoinQuoted(init);
      assert Terminated(columns) == (j + ",") + q + ",";
      assert JoinQuoted(columns) == j + "," + q;
    }
  }

  /** The `searchIn` parameter of `lookup`. */
  function SearchIn(moduleName: string, columns: seq<string>): string {
    "{\"" + moduleName + "\":[" + JoinQuoted(columns) + "]}"
  }

  /** The column loop of `lookup`, then the trailing comma cut off with
      `substr($columnsText, 0, strlen($columnsText) - 1)` (which leaves "" as
      it is). */
  method ColumnsText(columns: seq<string>) returns (columnsText: string)
    ensures columnsText == JoinQuoted(columns)
  {
    columnsText := "";
    for i := 0 to |columns|
      invariant columnsText == Terminated(columns[..i])
    {
      assert columns[..i + 1][..i] == columns[..i];
      columnsText := columnsText + "\"" + columns[i] + "\",";
    }
    assert columns[..|columns|] == columns;
    if columns != [] {
      TerminatedIsJoinedWithComma(columns);
    }
    columnsText := if |columnsText| == 0 then "" else columnsText[..|columnsText| - 1];
  }

  method BuildSearchIn(moduleName: string, columns: seq<string>) returns (searchIn: string)
    ensures searchIn == SearchIn(moduleName, columns)
  {
    var columnsText := ColumnsText(columns);
    searchIn := "{\"" + moduleName + "\":[" + columnsText + "]}";
  }

  // ----------------------------------------------------------- placeholders

  /** The index of the first `c` in `s`, `|s|` if there is none. */
  function IndexOf(s: string, c: char): (i: nat)
    ensures i <= |s|
    ensures i < |s| ==> s[i] == c
    ensures forall j :: 0 <= j < i ==> s[j] != c
    decreases |s|
  {
    if s == [] || s[0] == c then 0 else 1 + IndexOf(s[1..], c)
  }

  /** `preg_replace('/\?/', $replacement, $s, 1)`: the first `?` replaced. */
  function ReplaceFirst(s: string, replacement: string): string
    decreases |s|
  {
    if s == [] then s
    else if s[0] == '?' then replacement + s[1..]
    else [s[0]] + ReplaceFirst(s[1..], replacement)
  }

  /** Everything before the first `?` is kept, the `?` itself replaced, and
      everything after it kept; text without `?` is left as it is. */
  lemma {:induction false} ReplaceFirstSplits(s: string, replacement: string)
    ensures var i := IndexOf(s, '?');
            ReplaceFirst(s, replacement) == if i == |s| then s else s[..i] + replacement + s[i + 1..]
    decreases |s|
  {
    if s != [] && s[0] != '?' {
      var t := s[1..];
      ReplaceFirstSplits(t, replacement);
      var i := IndexOf(t, '?');
      assert IndexOf(s, '?') == i + 1;
      assert ReplaceFirst(s, replacement) == [s[0]] + ReplaceFirst(t, replacement);
      if i < |t| {
        var a := t[..i];
        var b := t[i + 1..];
        assert [s[0]] + a == s[..i + 1];
        assert b == s[i + 2..];
        calc {
          [s[0]] + (a + replacement + b);
          ([s[0]] + a) + replacement + b;
          s[..i + 1] + replacement + s[i + 2..];
        }
      } else {
        assert [s[0]] + t == s;
      }
    }
  }

  /** The `foreach` of `search`: one replace-first per binding, in order. */
  function Substituted(s: string, replacements: seq<string>): string
    decreases |replacements|
  {
    if replacements == [] then s
    else Substituted(ReplaceFirst(s, replacements[0]), replacements[1..])
  }

  function Replacement(binding: string, quote: bool, quoteFn: string -> string): string {
    if quote then quoteFn(binding) else binding
  }

  function Replacements(bindings: seq<string>, quote: bool, quoteFn: string -> string): seq<string> {
    seq(|bindings|, i requires 0 <= i < |bindings| => Replacement(bindings[i], quote, quoteFn))
  }

  method SubstituteBindings(sql: string, bindings: seq<string>, quote: bool, quoteFn: string -> string)
    returns (queryString: string)
    ensures queryString == Substituted(sql, Replacements(bindings, quote, quoteFn))
  {
    ghost var reps := Replacements(bindings, quote, quoteFn);
    queryString := sql;
    for i := 0 to |bindings|
      invariant Substituted(queryString, reps[i..]) == Substituted(sql, reps)
    {
      assert reps[i..][1..] == reps[i + 1..];
      if quote {
        queryString := ReplaceFirst(queryString, quoteFn(bindings[i]));
      } else {
        queryString := ReplaceFirst(queryString, bindings[i]);
      }
    }
  }

  /** The reference: the i-th `?` of the text replaced by the i-th value. */
  function Positional(s: string, replacements: seq<string>): string
    decreases |replacements|
  {
    var i := IndexOf(s, '?');
    if replacements == [] || i == |s| then s
    else s[..i] + replacements[0] + Positional(s[i + 1..], replacements[1..])
  }

  lemma {:induction false} ReplaceFirstAfterPlain(a: string, b: string, replacement: string)
    requires '?' !in a
    ensures ReplaceFirst(a + b, replacement) == a + ReplaceFirst(b, replacement)
    decreases |a|
  {
    if a == [] {
      assert a + b == b;
    } else {
      assert (a + b)[0] == a[0] && (a + b)[1..] == a[1..] + b;
      ReplaceFirstAfterPlain(a[1..], b, replacement);
    }
  }

  lemma {:induction false} SubstitutedAfterPlain(a: string, b: string, replacements: seq<string>)
    requires '?' !in a
    ensures Substituted(a + b, replacements) == a + Substituted(b, replacements)
    decreases |replacements|
  {
    if replacements != [] {
      ReplaceFirstAfterPlain(a, b, replacements[0]);
      SubstitutedAfterPlain(a, ReplaceFirst(b, replacements[0]), replacements[1..]);
    }
  }

  /** When no replacement contains `?`, the loop is positional substitution. */
  lemma {:induction false} SubstitutedIsPositional(s: string, replacements: seq<string>)
    requires forall k :: 0 <= k < |replacements| ==> '?' !in replacements[k]
    ensures Substituted(s, replacements) == Positional(s, replacements)
    decreases |replacements|
  {
    var i := IndexOf(s, '?');
    if replacements != [] && i < |s| {
      var a := s[..i] + replacements[0];
      var rest := s[i + 1..];
      ReplaceFirstSplits(s, replacements[0]);
      assert ReplaceFirst(s, replacements[0]) == a + rest;
      assert '?' !in s[..i];
      assert '?' !in a;
      SubstitutedAfterPlain(a, rest, replacements[1..]);
      SubstitutedIsPositional(rest, replacements[1..]);
    } else if replacements != [] {
      NoPlaceholderFixed(s, replacements);
    }
  }

  lemma {:induction false} NoPlaceholderFixed(s: string, replacements: seq<string>)
    requires '?' !in s
    ensures Substituted(s, replacements) == s
    decreases |replacements|
  {
    if replacements != [] {
      ReplaceFirstSplits(s, replacements[0]);
      NoPlaceholderFixed(s, replacements[1..]);
    }
  }

  /** A binding that itself contains `?` takes the next binding's place:
      the second value lands inside the first. */
  lemma PlaceholderInBindingIsReplaced()
    ensures Substituted("?,?", ["x?", "y"]) == "xy,?"
  {
    assert ReplaceFirst("?,?", "x?") == "x?,?";
    assert "x?,?" == "x" + "?,?";
    ReplaceFirstAfterPlain("x", "?,?", "y");
    assert ReplaceFirst("?,?", "y") == "y,?";
    assert ["x?", "y"][1..] == ["y"];
  }

  /** The same text and bindings, substituted by position: each value
      where its own `?` stood. */
  lemma PositionalKeepsBinding()
    ensures Positional("?,?", ["x?", "y"]) == "x?,y"
  {
    var s := "?,?";
    assert IndexOf(s, '?') == 0;
    assert s[1..] == ",?";
    assert IndexOf(",?", '?') == 1;
    assert ["x?", "y"][1..] == ["y"];
    assert Positional(",?", ["y"]) == "," + "y" + Positional("", []);
  }

  // ------------------------------------------------------- offset and limit

  /** PCRE's `\s` without the UTF flag. */
  predicate IsSpace(c: char) {
    c == ' ' || c == '\t' || c == '\n' || c == '\r' || c == '\U{0B}' || c == '\U{0C}'
  }

  predicate IsDigit(c: char) {
    '0' <= c <= '9'
  }

  const Offset := "offset"
  const Limit := "limit"

  /** The length of the digit run at the start of `s` (`\d*`, greedy). */
  function DigitRun(s: string): (n: nat)
    ensures n <= |s|
    ensures forall i :: 0 <= i < n ==> IsDigit(s[i])
    ensures n < |s| ==> !IsDigit(s[n])
    decreases |s|
  {
    if s == [] || !IsDigit(s[0]) then 0 else 1 + DigitRun(s[1..])
  }

  /** `s` starts with a match of `/(\s<keyword>) (\d*)/` (lower-case only). */
  predicate StartsClause(s: string, keyword: string) {
    |s| >= |keyword| + 2 && IsSpace(s[0]) && s[1..|keyword| + 1] == keyword && s[|keyword| + 1] == ' '
  }

  function ClauseLength(s: string, keyword: string): (n: nat)
    requires StartsClause(s, keyword)
    ensures |keyword| + 2 <= n <= |s|
  {
    |keyword| + 2 + DigitRun(s[|keyword| + 2..])
  }

  /** The second capture group of a match at the start of `s`. */
  function Captured(s: string, keyword: string): string
    requires StartsClause(s, keyword)
  {
    s[|keyword| + 2..ClauseLength(s, keyword)]
  }

  /** `preg_match`: the captured digits of the leftmost match. */
  function FirstClause(s: string, keyword: string): (r: Option<string>)
    ensures r.None? <==> forall i {:trigger StartsClause(s[i..], keyword)} :: 0 <= i < |s| ==> !StartsClause(s[i..], keyword)
    decreases |s|
  {
    if s == [] then None
    else if StartsClause(s, keyword) then
      assert s[0..] == s;
      Some(Captured(s, keyword))
    else
      var r := FirstClause(s[1..], keyword);
      assert forall i :: 1 <= i < |s| ==> s[i..] == s[1..][i - 1..];
      r
  }

  /** `preg_replace` with no limit: every match, left to right, removed; the
      scan goes on after each match and never looks back. */
  function RemoveClauses(s: string, keyword: string): string
    decreases |s|
  {
    if s == [] then s
    else if StartsClause(s, keyword) then RemoveClauses(s[ClauseLength(s, keyword)..], keyword)
    else [s[0]] + RemoveClauses(s[1..], keyword)
  }

  /** The offset/limit rewrite of `search`: only when both lower-case
      clauses occur, both are cut and ` limit <offset>,<limit>` appended. */
  function RewriteOffsetLimit(s: string): string {
    var offset := FirstClause(s, Offset);
    var limit := FirstClause(s, Limit);
    if offset.Some? && limit.Some? then
      RemoveClauses(RemoveClauses(s, Offset), Limit) + " limit " + offset.value + "," + limit.value
    else s
  }

  /** `str_replace('`', '', $s)`. */
  function StripBackticks(s: string): (r: string)
    ensures '`' !in r
    ensures forall c :: c != '`' ==> multiset(r)[c] == multiset(s)[c]
    ensures '`' !in s ==> r == s
    decreases |s|
  {
    if s == [] then s
    else
      assert s == [s[0]] + s[1..];
      if s[0] == '`' then StripBackticks(s[1..])
      else [s[0]] + StripBackticks(s[1..])
  }

  /** Removal works piece by piece, so the order of what is kept is the
      order of the input. */
  lemma {:induction false} StripBackticksConcat(a: string, b: string)
    ensures StripBackticks(a + b) == StripBackticks(a) + StripBackticks(b)
    decreases |a|
  {
    if a == [] {
      assert a + b == b;
    } else {
      assert (a + b)[0] == a[0] && (a + b)[1..] == a[1..] + b;
      StripBackticksConcat(a[1..], b);
    }
  }

  /** On one character: a backtick goes, anything else stays. */
  lemma StripBackticksChar(c: char)
    ensures StripBackticks([c]) == if c == '`' then [] else [c]
  {
    assert [c][1..] == [];
  }

  /** The last step of `search`: backticks removed, `;` appended. */
  function FinishQuery(s: string): (r: string)
    ensures |r| > 0 && r[|r| - 1] == ';'
    ensures '`' !in r
  {
    StripBackticks(s) + ";"
  }

  /** The whole text `search` hands to `query`. */
  function SearchText(sql: string, bindings: seq<string>, quote: bool, quoteFn: string -> string): string {
    FinishQuery(RewriteOffsetLimit(Substituted(sql, Replacements(bindings, quote, quoteFn))))
  }

  // Lemmas about the rewrite.

  /** No match starts inside `a` when `b` follows it. */
  ghost predicate NoClauseIn(a: string, b: string, keyword: string) {
    forall i {:trigger StartsClause((a + b)[i..], keyword)} :: 0 <= i < |a| ==> !StartsClause((a + b)[i..], keyword)
  }

  lemma {:induction false} FirstClauseAfter(a: string, b: string, keyword: string)
    requires NoClauseIn(a, b, keyword)
    ensures FirstClause(a + b, keyword) == FirstClause(b, keyword)
    decreases |a|
  {
    if a == [] {
      assert a + b == b;
    } else {
      var s := a + b;
      assert s[0..] == s;
      assert !StartsClause(s, keyword);
      assert s[1..] == a[1..] + b;
      NoClauseInTail(a, b, keyword);
      FirstClauseAfter(a[1..], b, keyword);
    }
  }

  lemma NoClauseInTail(a: string, b: string, keyword: string)
    requires a != []
    requires NoClauseIn(a, b, keyword)
    ensures NoClauseIn(a[1..], b, keyword)
  {
    forall i | 0 <= i < |a| - 1 ensures !StartsClause((a[1..] + b)[i..], keyword) {
      assert (a[1..] + b)[i..] == (a + b)[i + 1..];
    }
  }

  lemma {:induction false} RemoveClausesAfter(a: string, b: string, keyword: string)
    requires NoClauseIn(a, b, keyword)
    ensures RemoveClauses(a + b, keyword) == a + RemoveClauses(b, keyword)
    decreases |a|
  {
    if a == [] {
      assert a + b == b;
    } else {
      var s := a + b;
      assert s[0..] == s;
      assert !StartsClause(s, keyword);
      assert s[1..] == a[1..] + b;
      NoClauseInTail(a, b, keyword);
      RemoveClausesAfter(a[1..], b, keyword);
      assert a == [a[0]] + a[1..];
    }
  }

  /** A clause has its keyword's first letter right after the space. */
  lemma SecondCharOfClause(t: string, keyword: string)
    requires |keyword| > 0
    requires |t| < 2 || t[1] != keyword[0]
    ensures !StartsClause(t, keyword)
  {
    if |t| >= |keyword| + 2 {
      assert t[1..|keyword| + 1][0] == t[1];
    }
  }

  /** So text without that letter (after its first character) holds none. */
  lemma NoClauseWithoutLetter(a: string, b: string, keyword: string)
    requires |keyword| > 0
    requires a == [] || keyword[0] !in a[1..]
    requires b == [] || b[0] != keyword[0]
    ensures NoClauseIn(a, b, keyword)
  {
    forall i | 0 <= i < |a| ensures !StartsClause((a + b)[i..], keyword) {
      var t := (a + b)[i..];
      if i + 1 < |a| {
        assert a[1..][i] == a[i + 1] == t[1];
      } else if |t| >= 2 {
        assert b[0] == t[1];
      }
      SecondCharOfClause(t, keyword);
    }
  }

  lemma ClauseBySameStart(s: string, u: string, keyword: string)
    requires |s| >= |keyword| + 2 && |u| >= |keyword| + 2
    requires s[..|keyword| + 2] == u[..|keyword| + 2]
    ensures StartsClause(s, keyword) == StartsClause(u, keyword)
  {
    var n := |keyword| + 2;
    forall j | 0 <= j < n ensures s[j] == u[j] {
      assert s[j] == s[..n][j] && u[j] == u[..n][j];
    }
    assert s[1..n - 1] == u[1..n - 1];
  }

  /** A clause that starts inside `p` and ends beyond `p + " "` would have a
      space inside its keyword. */
  lemma NoClauseBeforeSpace(p: string, t: string, keyword: string)
    requires ' ' !in keyword
    requires |t| > 0 && t[0] == ' '
    requires NoClauseIn(p, " ", keyword)
    ensures NoClauseIn(p, t, keyword)
  {
    forall i | 0 <= i < |p| ensures !StartsClause((p + t)[i..], keyword) {
      var s := (p + t)[i..];
      var u := (p + " ")[i..];
      var n := |keyword| + 2;
      assert !StartsClause(u, keyword);
      if |s| < n {
      } else if i + n <= |p| + 1 {
        assert s[..n] == u[..n];
        ClauseBySameStart(s, u, keyword);
      } else {
        var j := |p| - i;
        assert 1 <= j <= |keyword|;
        assert s[j] == t[0] == ' ';
        assert s[1..|keyword| + 1][j - 1] == ' ';
        assert keyword[j - 1] != ' ';
        assert s[1..|keyword| + 1] != keyword;
      }
    }
  }

  lemma {:induction false} DigitRunOfDigits(n: string, rest: string)
    requires forall i :: 0 <= i < |n| ==> IsDigit(n[i])
    requires rest == [] || !IsDigit(rest[0])
    ensures DigitRun(n + rest) == |n|
    decreases |n|
  {
    if n != [] {
      assert (n + rest)[1..] == n[1..] + rest;
      DigitRunOfDigits(n[1..], rest);
    }
  }

  ghost predicate Digits(n: string) {
    forall i :: 0 <= i < |n| ==> IsDigit(n[i])
  }

  /** The fixed part of a clause, a space, the keyword and a space. */
  lemma ClauseHead(keyword: string, x: string)
    ensures var s := " " + keyword + " " + x;
            StartsClause(s, keyword) && s[|keyword| + 2..] == x
  {
    var h := " " + keyword + " ";
    var s := h + x;
    var k := |keyword|;
    assert |h| == k + 2;
    assert s[0] == h[0] == ' ';
    assert s[k + 1] == h[k + 1] == ' ';
    assert s[1..k + 1] == h[1..k + 1] == keyword;
  }

  /** A clause with its digits, followed by text that does not start with a
      digit, is captured and removed whole. */
  lemma ClauseConsumed(keyword: string, n: string, rest: string)
    requires Digits(n)
    requires rest == [] || !IsDigit(rest[0])
    ensures var s := " " + keyword + " " + n + rest;
            StartsClause(s, keyword) && Captured(s, keyword) == n &&
            RemoveClauses(s, keyword) == RemoveClauses(rest, keyword)
  {
    var k := |keyword|;
    var h := " " + keyword + " ";
    var x := n + rest;
    var s := h + n + rest;
    assert s == h + x;
    ClauseHead(keyword, x);
    DigitRunOfDigits(n, rest);
    var l := ClauseLength(s, keyword);
    assert l == k + 2 + |n|;
    assert s[k + 2..l] == s[k + 2..][..|n|] == x[..|n|] == n;
    assert s[l..] == s[k + 2..][|n|..] == x[|n|..] == rest;
  }

  lemma DigitsHaveNoLetter(n: string, c: char)
    requires Digits(n)
    requires !IsDigit(c)
    ensures c !in n
  {
    forall i | 0 <= i < |n| ensures n[i] != c {
      assert IsDigit(n[i]);
    }
  }

  /** The limit clause holds no offset clause, and the other way round. */
  lemma LimitClauseQuiet(m: string, rest: string)
    requires Digits(m)
    requires rest == [] || rest[0] == ' '
    ensures NoClauseIn(" limit " + m, rest, Offset)
  {
    var lim := " limit " + m;
    assert lim[1..] == "limit " + m;
    DigitsHaveNoLetter(m, 'o');
    NoClauseWithoutLetter(lim, rest, Offset);
  }

  lemma OffsetClauseQuiet(n: string, rest: string)
    requires Digits(n)
    requires rest == [] || rest[0] == ' '
    ensures NoClauseIn(" offset " + n, rest, Limit)
  {
    var off := " offset " + n;
    assert off[1..] == "offset " + n;
    DigitsHaveNoLetter(n, 'l');
    NoClauseWithoutLetter(off, rest, Limit);
  }

  /** In `p + t`, with `p` clean and `t` starting with a space, both searches
      and both removals pass over `p` untouched. */
  lemma CleanPrefix(p: string, t: string)
    requires |t| > 0 && t[0] == ' '
    requires NoClauseIn(p, " ", Offset) && NoClauseIn(p, " ", Limit)
    ensures FirstClause(p + t, Offset) == FirstClause(t, Offset)
    ensures FirstClause(p + t, Limit) == FirstClause(t, Limit)
    ensures RemoveClauses(p + t, Offset) == p + RemoveClauses(t, Offset)
    ensures RemoveClauses(p + t, Limit) == p + RemoveClauses(t, Limit)
  {
    NoClauseBeforeSpace(p, t, Offset);
    NoClauseBeforeSpace(p, t, Limit);
    FirstClauseAfter(p, t, Offset);
    FirstClauseAfter(p, t, Limit);
    RemoveClausesAfter(p, t, Offset);
    RemoveClausesAfter(p, t, Limit);
  }

  /** The limit clause alone is taken out whole by the limit removal. */
  lemma LimitClauseRemoved(m: string)
    requires Digits(m)
    ensures RemoveClauses(" limit " + m, Limit) == ""
  {
    assert " limit " + m == " " + Limit + " " + m + "";
    ClauseConsumed(Limit, m, "");
  }

  /** The two clauses in the order `limit M offset N`, on their own. */
  lemma LimitThenOffsetTail(m: string, n: string)
    requires Digits(m) && Digits(n)
    ensures var t := " limit " + m + " offset " + n;
            FirstClause(t, Offset) == Some(n) && FirstClause(t, Limit) == Some(m) &&
            RemoveClauses(t, Offset) == " limit " + m
  {
    var lim := " limit " + m;
    var off := " offset " + n;
    assert " limit " + m + " offset " + n == lim + off;
    assert off == " " + Offset + " " + n + "";
    assert lim + off == " " + Limit + " " + m + off;
    LimitClauseQuiet(m, off);
    FirstClauseAfter(lim, off, Offset);
    RemoveClausesAfter(lim, off, Offset);
    ClauseConsumed(Offset, n, "");
    ClauseConsumed(Limit, m, off);
    assert lim + "" == lim;
  }

  /** The two clauses in the order `offset N limit M`, on their own. */
  lemma OffsetThenLimitTail(n: string, m: string)
    requires Digits(m) && Digits(n)
    ensures var t := " offset " + n + " limit " + m;
            FirstClause(t, Offset) == Some(n) && FirstClause(t, Limit) == Some(m) &&
            RemoveClauses(t, Offset) == " limit " + m
  {
    var lim := " limit " + m;
    var off := " offset " + n;
    assert " offset " + n + " limit " + m == off + lim;
    assert lim == " " + Limit + " " + m + "";
    assert off + lim == " " + Offset + " " + n + lim;
    OffsetClauseQuiet(n, lim);
    FirstClauseAfter(off, lim, Limit);
    ClauseConsumed(Limit, m, "");
    ClauseConsumed(Offset, n, lim);
    LimitClauseQuiet(m, "");
    RemoveClausesAfter(lim, "", Offset);
    assert lim + "" == lim;
  }

  /** A clean prefix followed by a tail holding both clauses, the limit
      clause left over once the offset clause is removed. */
  lemma RewriteAfterCleanPrefix(p: string, t: string, m: string, n: string)
    requires Digits(m)
    requires |t| > 0 && t[0] == ' '
    requires NoClauseIn(p, " ", Offset) && NoClauseIn(p, " ", Limit)
    requires FirstClause(t, Offset) == Some(n) && FirstClause(t, Limit) == Some(m)
    requires RemoveClauses(t, Offset) == " limit " + m
    ensures RewriteOffsetLimit(p + t) == p + " limit " + n + "," + m
  {
    CleanPrefix(p, t);
    CleanPrefix(p, " limit " + m);
    LimitClauseRemoved(m);
    assert p + "" == p;
  }

  /** Laravel's order, `... limit M offset N`, becomes `... limit N,M`. */
  lemma RewriteLimitOffset(p: string, m: string, n: string)
    requires Digits(m) && Digits(n)
    requires NoClauseIn(p, " ", Offset) && NoClauseIn(p, " ", Limit)
    ensures RewriteOffsetLimit(p + " limit " + m + " offset " + n) == p + " limit " + n + "," + m
  {
    var t := " limit " + m + " offset " + n;
    assert p + " limit " + m + " offset " + n == p + t;
    LimitThenOffsetTail(m, n);
    RewriteAfterCleanPrefix(p, t, m, n);
  }

  /** The other order, `... offset N limit M`, gives the same text. */
  lemma RewriteOffsetThenLimit(p: string, n: string, m: string)
    requires Digits(m) && Digits(n)
    requires NoClauseIn(p, " ", Offset) && NoClauseIn(p, " ", Limit)
    ensures RewriteOffsetLimit(p + " offset " + n + " limit " + m) == p + " limit " + n + "," + m
  {
    var t := " offset " + n + " limit " + m;
    assert p + " offset " + n + " limit " + m == p + t;
    OffsetThenLimitTail(n, m);
    RewriteAfterCleanPrefix(p, t, m, n);
  }

  /** The rewrite touches the text only when both a lower-case offset
      clause and a lower-case limit clause occur in it. */
  lemma RewriteNeedsBoth(s: string)
    ensures RewriteOffsetLimit(s) != s ==>
              (exists i {:trigger StartsClause(s[i..], Offset)} :: 0 <= i < |s| && StartsClause(s[i..], Offset)) &&
              (exists j {:trigger StartsClause(s[j..], Limit)} :: 0 <= j < |s| && StartsClause(s[j..], Limit))
  {
  }

  /** The match is case-sensitive: upper-case clauses after a clean prefix
      reach the query as they were written. */
  lemma UpperCaseNotRewritten(p: string, n: string, m: string)
    requires Digits(n) && Digits(m)
    requires NoClauseIn(p, " ", Offset)
    ensures RewriteOffsetLimit(p + " OFFSET " + n + " LIMIT " + m) == p + " OFFSET " + n + " LIMIT " + m
  {
    var t := " OFFSET " + n + " LIMIT " + m;
    assert p + " OFFSET " + n + " LIMIT " + m == p + t;
    DigitsHaveNoLetter(n, 'o');
    DigitsHaveNoLetter(m, 'o');
    assert t[1..] == "OFFSET " + n + " LIMIT " + m;
    NoClauseWithoutLetter(t, "", Offset);
    assert t + "" == t;
    FirstClauseAfter(t, "", Offset);
    NoClauseBeforeSpace(p, t, Offset);
    FirstClauseAfter(p, t, Offset);
  }
}
