/** String utilities: the slug used for ids and file names, and decimal suffixes. */
module Text {
  predicate IsUpper(c: char) { 'A' <= c <= 'Z' }

  predicate IsLowerOrDigit(c: char) { 'a' <= c <= 'z' || '0' <= c <= '9' }

  predicate IsAlnum(c: char) { IsUpper(c) || IsLowerOrDigit(c) }

  function LowerChar(c: char): (r: char)
    ensures !IsUpper(r)
  {
    if IsUpper(c) then c + ('a' - 'A') else c
  }

  function Lower(s: string): (r: string)
    ensures |r| == |s|
    ensures forall i :: 0 <= i < |s| ==> r[i] == LowerChar(s[i])
  {
    seq(|s|, i requires 0 <= i < |s| => LowerChar(s[i]))
  }

  /** An underscore before every capital except one at the very start. */
  function SplitCamel(s: string, atStart: bool): string {
    if s == "" then ""
    else (if IsUpper(s[0]) && !atStart then "_" else "") + [s[0]] + SplitCamel(s[1..], false)
  }

  /** Every maximal run of other characters becomes one underscore. */
  function Collapse(s: string, inRun: bool): string {
    if s == "" then ""
    else if IsAlnum(s[0]) then [s[0]] + Collapse(s[1..], false)
    else if inRun then Collapse(s[1..], true)
    else "_" + Collapse(s[1..], true)
  }

  function StripLeft(s: string): string {
    if s != "" && s[0] == '_' then StripLeft(s[1..]) else s
  }

  function StripRight(s: string): string {
    if s != "" && s[|s| - 1] == '_' then StripRight(s[..|s| - 1]) else s
  }

  function Slugify(name: string): string {
    Lower(StripRight(StripLeft(Collapse(SplitCamel(name, true), false))))
  }

  predicate NoDoubleUnderscore(s: string) {
    forall i :: 0 < i < |s| ==> s[i - 1] != '_' || s[i] != '_'
  }

  /** The normal form: lower-case alphanumeric groups joined by single underscores. */
  predicate IsSlug(s: string) {
    && (forall i :: 0 <= i < |s| ==> IsLowerOrDigit(s[i]) || s[i] == '_')
    && (s != "" ==> s[0] != '_' && s[|s| - 1] != '_')
    && NoDoubleUnderscore(s)
  }

  /** The letters and digits of a string, in order, in lower case. */
  function Letters(s: string): string {
    if s == "" then ""
    else (if IsAlnum(s[0]) then [LowerChar(s[0])] else "") + Letters(s[1..])
  }

  predicate WordChars(s: string) {
    forall i :: 0 <= i < |s| ==> IsAlnum(s[i]) || s[i] == '_'
  }

  lemma {:induction false} LettersAppend(a: string, b: string)
    ensures Letters(a + b) == Letters(a) + Letters(b)
  {
    hide LowerChar, IsAlnum;
    if a == "" {
      assert a + b == b;
    } else {
      assert (a + b)[1..] == a[1..] + b;
      LettersAppend(a[1..], b);
    }
  }

  lemma {:induction false} SplitCamelLetters(s: string, atStart: bool)
    ensures Letters(SplitCamel(s, atStart)) == Letters(s)
  {
    if s != "" {
      SplitCamelLetters(s[1..], false);
      var head := (if IsUpper(s[0]) && !atStart then "_" else "") + [s[0]];
      assert SplitCamel(s, atStart) == head + SplitCamel(s[1..], false);
      LettersAppend(head, SplitCamel(s[1..], false));
      assert head[1..] == if IsUpper(s[0]) && !atStart then [s[0]] else "";
      assert s == [s[0]] + s[1..];
      LettersAppend([s[0]], s[1..]);
    }
  }

  lemma {:induction false} CollapseForm(s: string, inRun: bool)
    ensures var c := Collapse(s, inRun);
      && WordChars(c) && NoDoubleUnderscore(c)
      && (inRun && c != "" ==> c[0] != '_')
      && Letters(c) == Letters(s)
  {
    if s != "" {
      CollapseForm(s[1..], !IsAlnum(s[0]));
      var c, d := Collapse(s, inRun), Collapse(s[1..], !IsAlnum(s[0]));
      if IsAlnum(s[0]) || !inRun {
        assert c[1..] == d;
        assert forall i :: 0 < i < |c| ==> c[i] == d[i - 1];
      }
    }
  }

  lemma {:induction false} StripForm(s: string)
    requires WordChars(s) && NoDoubleUnderscore(s)
    ensures var t := StripRight(StripLeft(s));
      && WordChars(t) && NoDoubleUnderscore(t) && Letters(t) == Letters(s)
      && (t != "" ==> t[0] != '_' && t[|t| - 1] != '_')
    decreases |s|
  {
    if s != "" && s[0] == '_' {
      StripForm(s[1..]);
    } else {
      StripRightForm(s);
    }
  }

  lemma {:induction false} StripRightForm(s: string)
    requires WordChars(s) && NoDoubleUnderscore(s) && (s != "" ==> s[0] != '_')
    ensures var t := StripRight(s);
      && WordChars(t) && NoDoubleUnderscore(t) && Letters(t) == Letters(s)
      && (t != "" ==> t[0] != '_' && t[|t| - 1] != '_')
    decreases |s|
  {
    if s != "" && s[|s| - 1] == '_' {
      var n := |s| - 1;
      assert s == s[..n] + [s[n]];
      LettersAppend(s[..n], [s[n]]);
      StripRightForm(s[..n]);
    }
  }

  lemma {:induction false} LowerLetters(s: string)
    ensures Letters(Lower(s)) == Letters(s)
  {
    if s != "" {
      assert Lower(s)[1..] == Lower(s[1..]);
      LowerLetters(s[1..]);
    }
  }

  /** A slug is in normal form and keeps exactly the letters and digits of the name, in order. */
  lemma SlugNormalForm(name: string)
    ensures IsSlug(Slugify(name))
    ensures Letters(Slugify(name)) == Letters(name)
  {
    var a := SplitCamel(name, true);
    SplitCamelLetters(name, true);
    CollapseForm(a, false);
    StripForm(Collapse(a, false));
    LowerLetters(StripRight(StripLeft(Collapse(a, false))));
  }

  lemma {:induction false} SplitCamelNoCapitals(s: string, atStart: bool)
    requires forall i :: 0 <= i < |s| ==> !IsUpper(s[i])
    ensures SplitCamel(s, atStart) == s
  {
    if s != "" {
      SplitCamelNoCapitals(s[1..], false);
      assert s == [s[0]] + s[1..];
    }
  }

  lemma {:induction false} CollapseWord(s: string, inRun: bool)
    requires WordChars(s) && NoDoubleUnderscore(s)
    requires inRun && s != "" ==> s[0] != '_'
    ensures Collapse(s, inRun) == s
  {
    if s != "" {
      CollapseWord(s[1..], !IsAlnum(s[0]));
      assert s == [s[0]] + s[1..];
    }
  }

  /** A normal form is its own slug, so taking the slug twice changes nothing. */
  lemma SlugOfSlug(s: string)
    requires IsSlug(s)
    ensures Slugify(s) == s
  {
    SplitCamelNoCapitals(s, true);
    CollapseWord(s, false);
  }

  lemma SlugIdempotent(name: string)
    ensures Slugify(Slugify(name)) == Slugify(name)
  {
    SlugNormalForm(name);
    SlugOfSlug(Slugify(name));
  }

  // ---- the slug in one pass ----

  /** The lower-cased letters and digits of a string; one underscore before a character that does not come
      first when it is a capital or when something else came between. */
  function Words(s: string, started: bool, gap: bool): string {
    if s == "" then ""
    else if IsAlnum(s[0]) then
      (if started && (gap || IsUpper(s[0])) then "_" else "") + [LowerChar(s[0])] + Words(s[1..], true, false)
    else Words(s[1..], started, true)
  }

  lemma LowerAppend(a: string, b: string)
    ensures Lower(a + b) == Lower(a) + Lower(b)
  {
  }

  lemma {:induction false} StripRightAfter(p: string, t: string)
    requires p != "" && p[|p| - 1] != '_'
    ensures StripRight(p + t) == p + StripRight(t)
    decreases |t|
  {
    if t == "" {
      assert p + t == p;
    } else if t[|t| - 1] == '_' {
      assert (p + t)[..|p + t| - 1] == p + t[..|t| - 1];
      StripRightAfter(p, t[..|t| - 1]);
    }
  }

  lemma {:induction false} StripRightUnderscore(t: string)
    ensures StripRight("_" + t) == if StripRight(t) == "" then "" else "_" + StripRight(t)
    decreases |t|
  {
    if t == "" {
      assert "_" + t == "_" && "_"[..0] == "";
    } else if t[|t| - 1] == '_' {
      assert ("_" + t)[..|t|] == "_" + t[..|t| - 1];
      StripRightUnderscore(t[..|t| - 1]);
    }
  }

  function Rest(s: string, inRun: bool): string {
    Collapse(SplitCamel(s, false), inRun)
  }

  lemma CollapseLetter(c: char, more: string, inRun: bool)
    requires IsAlnum(c)
    ensures Collapse([c] + more, inRun) == [c] + Collapse(more, false)
    ensures Collapse("_" + ([c] + more), inRun) == (if inRun then "" else "_") + ([c] + Collapse(more, false))
  {
    assert ([c] + more)[1..] == more;
    assert ("_" + ([c] + more))[1..] == [c] + more;
  }

  lemma RestParts(s: string, inRun: bool)
    requires s != ""
    ensures Rest(s, inRun) ==
      if IsAlnum(s[0]) then (if IsUpper(s[0]) && !inRun then "_" else "") + ([s[0]] + Rest(s[1..], false))
      else (if inRun then "" else "_") + Rest(s[1..], true)
  {
    var more := SplitCamel(s[1..], false);
    if IsUpper(s[0]) {
      assert SplitCamel(s, false) == "_" + ([s[0]] + more);
      CollapseLetter(s[0], more, inRun);
    } else {
      assert SplitCamel(s, false) == [s[0]] + more;
      if IsAlnum(s[0]) {
        CollapseLetter(s[0], more, inRun);
      } else {
        assert ([s[0]] + more)[1..] == more;
      }
    }
  }

  /** What is left of a collapsed rest once stripped and lower-cased. */
  function Tail(s: string, inRun: bool): string {
    Lower(StripRight(Rest(s, inRun)))
  }

  lemma TailOfLetter(c: char, more: string)
    requires IsAlnum(c)
    ensures Lower(StripRight([c] + more)) == [LowerChar(c)] + Lower(StripRight(more))
    ensures Lower(StripRight("_" + ([c] + more))) == "_" + ([LowerChar(c)] + Lower(StripRight(more)))
  {
    StripRightAfter([c], more);
    StripRightUnderscore([c] + more);
    LowerAppend([c], StripRight(more));
    LowerAppend("_", [c] + StripRight(more));
    assert Lower("_") == "_" && Lower([c]) == [LowerChar(c)];
  }

  lemma TailOfUnderscore(more: string)
    ensures Lower(StripRight("_" + more)) == var y := Lower(StripRight(more)); if y == "" then "" else "_" + y
  {
    StripRightUnderscore(more);
    LowerAppend("_", StripRight(more));
    assert Lower("_") == "_";
  }

  lemma TailLetter(s: string, inRun: bool)
    requires s != "" && IsAlnum(s[0])
    ensures Tail(s, inRun) == (if IsUpper(s[0]) && !inRun then "_" else "") + ([LowerChar(s[0])] + Tail(s[1..], false))
  {
    RestParts(s, inRun);
    hide Rest, StripRight, Lower, LowerChar;
    var word := [s[0]] + Rest(s[1..], false);
    TailOfLetter(s[0], Rest(s[1..], false));
    assert "" + word == word;
  }

  lemma TailOther(s: string, inRun: bool)
    requires s != "" && !IsAlnum(s[0])
    ensures Tail(s, inRun) == var y := Tail(s[1..], true); if inRun || y == "" then y else "_" + y
  {
    RestParts(s, inRun);
    hide Rest, StripRight, Lower;
    var more := Rest(s[1..], true);
    TailOfUnderscore(more);
    assert "" + more == more;
  }

  /** Behind the first letter; in a run of other characters the underscore is still to come. */
  lemma {:induction false} WordsAfter(s: string)
    ensures Tail(s, false) == Words(s, true, false)
    ensures Words(s, true, true) == if Tail(s, true) == "" then "" else "_" + Tail(s, true)
  {
    if s != "" {
      WordsAfter(s[1..]);
      if IsAlnum(s[0]) {
        TailLetter(s, false);
        TailLetter(s, true);
      } else {
        TailOther(s, false);
        TailOther(s, true);
      }
      hide Tail, LowerChar;
    } else {
      assert Rest("", false) == "" && Rest("", true) == "";
    }
  }

  lemma StripLeftUnderscore(t: string)
    ensures StripLeft("_" + t) == StripLeft(t)
  {
    assert ("_" + t)[1..] == t;
  }

  lemma {:induction false} WordsBefore(s: string, inRun: bool, gap: bool)
    ensures Lower(StripRight(StripLeft(Rest(s, inRun)))) == Words(s, false, gap)
  {
    if s == "" {
      assert Rest(s, inRun) == "";
    } else {
      RestParts(s, inRun);
      if IsAlnum(s[0]) {
        var word := [s[0]] + Rest(s[1..], false);
        StripLeftUnderscore(word);
        assert StripLeft(word) == word;
        StartsWord(s);
        hide Rest, StripRight, Lower;
        assert "" + word == word;
      } else {
        WordsBefore(s[1..], true, true);
        StripLeftUnderscore(Rest(s[1..], true));
        assert "" + Rest(s[1..], true) == Rest(s[1..], true);
      }
    }
  }

  lemma StartsWord(s: string)
    requires s != "" && IsAlnum(s[0])
    ensures Lower(StripRight([s[0]] + Rest(s[1..], false))) == Words(s, false, false) == Words(s, false, true)
  {
    TailOfLetter(s[0], Rest(s[1..], false));
    WordsAfter(s[1..]);
    hide Rest, StripRight, Lower;
  }

  /** The three rewritings of the slug are one pass over the name. */
  lemma SlugExactly(name: string)
    ensures Slugify(name) == Words(name, false, false)
  {
    if name != "" && IsUpper(name[0]) {
      var more := SplitCamel(name[1..], false);
      assert SplitCamel(name, true) == [name[0]] + more;
      assert ([name[0]] + more)[1..] == more;
      StartsWord(name);
    } else {
      assert SplitCamel(name, true) == SplitCamel(name, false);
      WordsBefore(name, false, false);
    }
  }

  /** Equal but for capitals: each character is the other's, or its capital 32 places before it. */
  predicate SameButCapitals(s: string, w: string) {
    |s| == |w| && forall i :: 0 <= i < |s| ==>
      s[i] == w[i] || ('A' <= s[i] <= 'Z' && w[i] as int == s[i] as int + 32)
  }

  lemma LowerExactly(s: string, w: string)
    requires forall i :: 0 <= i < |w| ==> !('A' <= w[i] <= 'Z')
    ensures Lower(s) == w <==> SameButCapitals(s, w)
  {
    if SameButCapitals(s, w) {
      assert forall i :: 0 <= i < |s| ==> Lower(s)[i] == w[i];
    }
  }

  lemma {:induction false} CollapsePrefix(w: string, rest: string, inRun: bool)
    requires w != "" && WordChars(w) && NoDoubleUnderscore(w) && IsAlnum(w[0]) && IsAlnum(w[|w| - 1])
    ensures Collapse(w + rest, inRun) == w + Collapse(rest, false)
    decreases |w|
  {
    var tail := w[1..] + rest;
    assert (w + rest)[1..] == tail;
    if |w| == 1 {
      assert tail == rest;
    } else if w[1] == '_' {
      assert tail[1..] == w[2..] + rest;
      CollapsePrefix(w[2..], rest, true);
      assert w == [w[0]] + "_" + w[2..];
    } else {
      CollapsePrefix(w[1..], rest, false);
    }
  }

  function Digits(n: nat): (r: string)
    ensures r != ""
    ensures forall i :: 0 <= i < |r| ==> '0' <= r[i] <= '9'
    ensures Parse(r) == n
  {
    var d := [('0' as int + n % 10) as char];
    if n < 10 then d else Digits(n / 10) + d
  }

  function Parse(s: string): nat
    requires forall i :: 0 <= i < |s| ==> '0' <= s[i] <= '9'
  {
    if s == "" then 0 else 10 * Parse(s[..|s| - 1]) + (s[|s| - 1] as int - '0' as int)
  }
}
