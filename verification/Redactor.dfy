/** Text replacement as `str.replace` does it, and where brackets keep pieces of text apart. */
module TextReplace {

  predicate At(t: string, v: string, i: nat) {
    i + |v| <= |t| && forall k :: 0 <= k < |v| ==> v[k] == t[i + k]
  }

  ghost predicate Contains(t: string, v: string) {
    exists i :: At(t, v, i)
  }

  /** Non-overlapping occurrences, left to right. */
  function Replace(t: string, v: string, m: string): string
    requires v != ""
    decreases |t|
  {
    if t == "" then ""
    else if At(t, v, 0) then m + Replace(t[|v|..], v, m)
    else [t[0]] + Replace(t[1..], v, m)
  }

  predicate IsBracket(c: char) {
    c == '<' || c == '>'
  }

  predicate BracketFree(s: string) {
    forall i :: 0 <= i < |s| ==> !IsBracket(s[i])
  }

  /** A word without brackets: what may be searched for across a seam. */
  predicate Word(v: string) {
    v != "" && BracketFree(v)
  }

  predicate Opens(s: string) {
    s != "" && IsBracket(s[0])
  }

  predicate Closes(s: string) {
    s != "" && IsBracket(s[|s| - 1])
  }

  /** No word reaches from one side to the other. */
  predicate Seam(a: string, b: string) {
    a == "" || b == "" || Closes(a) || Opens(b)
  }

  lemma NoStraddle(a: string, b: string, v: string, i: nat)
    requires Word(v) && Seam(a, b) && i < |a| < i + |v| <= |a + b|
    ensures !At(a + b, v, i)
  {
    var k := if Closes(a) then |a| - 1 - i else |a| - i;
    assert IsBracket((a + b)[i + k]) && !IsBracket(v[k]);
  }

  lemma AtSeam(a: string, b: string, v: string, i: nat)
    requires Word(v) && Seam(a, b)
    ensures At(a + b, v, i) <==> At(a, v, i) || (i >= |a| && At(b, v, i - |a|))
  {
    if i < |a| < i + |v| <= |a + b| { NoStraddle(a, b, v, i); }
  }

  lemma ContainsSeam(a: string, b: string, v: string)
    requires Word(v) && Seam(a, b)
    ensures Contains(a + b, v) <==> Contains(a, v) || Contains(b, v)
  {
    if Contains(a + b, v) {
      var i: nat :| At(a + b, v, i);
      AtSeam(a, b, v, i);
    }
    if Contains(a, v) {
      var i: nat :| At(a, v, i);
      AtSeam(a, b, v, i);
    }
    if Contains(b, v) {
      var i: nat :| At(b, v, i);
      AtSeam(a, b, v, |a| + i);
    }
  }

  /** Three pieces with brackets around the middle one. */
  lemma ContainsMiddle(a: string, m: string, b: string, w: string)
    requires Word(w) && Opens(m) && Closes(m)
    ensures Contains(a + m + b, w) <==> Contains(a, w) || Contains(m, w) || Contains(b, w)
  {
    ContainsSeam(a, m, w);
    assert (a + m)[|a + m| - 1] == m[|m| - 1];
    ContainsSeam(a + m, b, w);
  }

  lemma PieceContains(a: string, p: string, b: string, w: string)
    requires Contains(p, w)
    ensures Contains(a + p + b, w)
  {
    var i: nat :| At(p, w, i);
    assert At(a + p + b, w, |a| + i);
  }

  // ---------------------------------------------------------------- replacing

  lemma {:induction false} AbsentReplace(t: string, v: string, m: string)
    requires v != "" && !Contains(t, v)
    ensures Replace(t, v, m) == t
    decreases |t|
  {
    if t != "" {
      assert !At(t, v, 0);
      TailContains(t, v);
      AbsentReplace(t[1..], v, m);
    }
  }

  lemma TailContains(t: string, v: string)
    requires t != ""
    ensures Contains(t[1..], v) ==> Contains(t, v)
  {
    if Contains(t[1..], v) {
      var i: nat :| At(t[1..], v, i);
      assert At(t, v, i + 1);
    }
  }

  /** Replacement works on both sides of a seam separately. */
  lemma {:induction false} ReplaceSeam(a: string, b: string, v: string, m: string)
    requires Word(v) && Seam(a, b)
    ensures Replace(a + b, v, m) == Replace(a, v, m) + Replace(b, v, m)
    decreases |a|
  {
    var t := a + b;
    if a == "" {
      assert t == b;
    } else {
      AtSeam(a, b, v, 0);
      var n := if At(a, v, 0) then |v| else 1;
      assert t[n..] == a[n..] + b;
      ReplaceSeam(a[n..], b, v, m);
    }
  }

  lemma ReplaceBracket(c: char, v: string, m: string)
    requires IsBracket(c) && Word(v)
    ensures Replace([c], v, m) == [c]
  {
    assert !IsBracket(v[0]) && !At([c], v, 0);
    assert [c][1..] == "";
  }

  /** Brackets at the ends stay. */
  lemma ReplaceEnds(s: string, v: string, m: string)
    requires Word(v)
    ensures Opens(s) ==> Opens(Replace(s, v, m))
    ensures Closes(s) ==> Closes(Replace(s, v, m))
  {
    if Opens(s) {
      assert s == [s[0]] + s[1..];
      ReplaceSeam([s[0]], s[1..], v, m);
      ReplaceBracket(s[0], v, m);
    }
    if Closes(s) {
      var n := |s| - 1;
      assert s == s[..n] + [s[n]];
      ReplaceSeam(s[..n], [s[n]], v, m);
      ReplaceBracket(s[n], v, m);
    }
  }

  /** A text that contains v splits at the first occurrence. */
  lemma {:induction false} SplitAtFirst(t: string, v: string, m: string) returns (s: string, r: string)
    requires v != "" && Contains(t, v)
    ensures t == s + v + r && !Contains(s, v)
    ensures Replace(t, v, m) == s + m + Replace(r, v, m)
    decreases |t|
  {
    if At(t, v, 0) {
      s, r := "", t[|v|..];
      SplitAtStart(t, v, m);
    } else {
      var i: nat :| At(t, v, i);
      assert At(t[1..], v, i - 1);
      var s', r' := SplitAtFirst(t[1..], v, m);
      s, r := [t[0]] + s', r';
      SplitLater(t, v, m, s', r');
    }
  }

  lemma SplitAtStart(t: string, v: string, m: string)
    requires v != "" && At(t, v, 0)
    ensures t == "" + v + t[|v|..] && !Contains("", v)
    ensures Replace(t, v, m) == "" + m + Replace(t[|v|..], v, m)
  {
    assert "" + m == m;
  }

  /** The first character is in front of the first occurrence. */
  lemma SplitLater(t: string, v: string, m: string, s: string, r: string)
    requires v != "" && t != "" && !At(t, v, 0)
    requires t[1..] == s + v + r && !Contains(s, v)
    requires Replace(t[1..], v, m) == s + m + Replace(r, v, m)
    ensures t == [t[0]] + s + v + r && !Contains([t[0]] + s, v)
    ensures Replace(t, v, m) == [t[0]] + s + m + Replace(r, v, m)
  {
    Regroup(t[0], s, v, r);
    assert t == [t[0]] + t[1..];
    ReplaceLater(t, v, m, s, Replace(r, v, m));
    InFront(t, s, v);
  }

  lemma ReplaceLater(t: string, v: string, m: string, s: string, rest: string)
    requires v != "" && t != "" && !At(t, v, 0) && Replace(t[1..], v, m) == s + m + rest
    ensures Replace(t, v, m) == [t[0]] + s + m + rest
  {
    Regroup(t[0], s, m, rest);
  }

  lemma Regroup(c: char, s: string, x: string, r: string)
    ensures [c] + (s + x + r) == [c] + s + x + r
  {
  }

  lemma InFront(t: string, s: string, v: string)
    requires v != "" && t != "" && s <= t[1..]
    ensures Contains([t[0]] + s, v) ==> At(t, v, 0) || Contains(s, v)
  {
    if Contains([t[0]] + s, v) {
      var j: nat :| At([t[0]] + s, v, j);
      if j == 0 {
        assert ([t[0]] + s)[..|v|] == t[..|v|];
      } else {
        assert At(s, v, j - 1);
      }
    }
  }

  /** A replacement creates no occurrence of another word, unless the inserted text has it. */
  lemma {:induction false} NothingNew(t: string, v: string, m: string, w: string)
    requires v != "" && Word(w) && Opens(m) && Closes(m) && !Contains(m, w)
    ensures Contains(Replace(t, v, m), w) ==> Contains(t, w)
    decreases |t|
  {
    if Contains(t, v) {
      var s, r := SplitAtFirst(t, v, m);
      NothingNew(r, v, m, w);
      ContainsMiddle(s, m, Replace(r, v, m), w);
      if Contains(s, w) { PieceContains("", s, v + r, w); assert "" + s + (v + r) == t; }
      if Contains(r, w) { PieceContains(s + v, r, "", w); assert s + v + r + "" == t; }
    } else {
      AbsentReplace(t, v, m);
    }
  }
}

/** The replace loop of the redactor. */
module Redaction {
  import opened TextReplace

  datatype Secret = Secret(value: string, kind: string)

  function Marker(kind: string): string {
    "<redacted:" + kind + ">"
  }

  /** The loop over the secrets in the order given. */
  function Scrub(secrets: seq<Secret>, text: string): string
    requires forall i :: 0 <= i < |secrets| ==> secrets[i].value != ""
    decreases |secrets|
  {
    if secrets == [] then text
    else Scrub(secrets[1..], Replace(text, secrets[0].value, Marker(secrets[0].kind)))
  }

  ghost predicate Clean(secrets: seq<Secret>, text: string) {
    forall i :: 0 <= i < |secrets| ==> !Contains(text, secrets[i].value)
  }

  /** Distinct words, longest first. */
  ghost predicate Proper(secrets: seq<Secret>) {
    && (forall i :: 0 <= i < |secrets| ==> Word(secrets[i].value))
    && (forall i, j :: 0 <= i < j < |secrets| ==>
          |secrets[i].value| >= |secrets[j].value| && secrets[i].value != secrets[j].value)
  }

  ghost predicate Words(secrets: seq<Secret>) {
    forall i :: 0 <= i < |secrets| ==> Word(secrets[i].value)
  }

  lemma {:induction false} ScrubSeam(secrets: seq<Secret>, a: string, b: string)
    requires Words(secrets) && Seam(a, b)
    ensures Scrub(secrets, a + b) == Scrub(secrets, a) + Scrub(secrets, b)
    decreases |secrets|
  {
    if secrets != [] {
      var v, m := secrets[0].value, Marker(secrets[0].kind);
      ReplaceSeam(a, b, v, m);
      ReplaceEnds(a, v, m);
      ReplaceEnds(b, v, m);
      ScrubSeam(secrets[1..], Replace(a, v, m), Replace(b, v, m));
    }
  }

  lemma {:induction false} ScrubEnds(secrets: seq<Secret>, s: string)
    requires Words(secrets)
    ensures Opens(s) ==> Opens(Scrub(secrets, s))
    ensures Closes(s) ==> Closes(Scrub(secrets, s))
    decreases |secrets|
  {
    if secrets != [] {
      var v, m := secrets[0].value, Marker(secrets[0].kind);
      ReplaceEnds(s, v, m);
      ScrubEnds(secrets[1..], Replace(s, v, m));
    }
  }

  lemma {:induction false} ScrubAbsent(secrets: seq<Secret>, text: string)
    requires Words(secrets) && Clean(secrets, text)
    ensures Scrub(secrets, text) == text
    decreases |secrets|
  {
    if secrets != [] {
      AbsentReplace(text, secrets[0].value, Marker(secrets[0].kind));
      ScrubAbsent(secrets[1..], text);
    }
  }

  lemma MarkerEnds(kind: string)
    ensures Opens(Marker(kind)) && Closes(Marker(kind))
  {
    assert Marker(kind)[0] == '<';
  }

  lemma ScrubMiddle(secrets: seq<Secret>, a: string, kind: string, b: string)
    requires Words(secrets)
    ensures var m := Scrub(secrets, Marker(kind));
            Scrub(secrets, a + Marker(kind) + b) == Scrub(secrets, a) + m + Scrub(secrets, b) && Opens(m) && Closes(m)
  {
    var m := Marker(kind);
    MarkerEnds(kind);
    ScrubEnds(secrets, m);
    ScrubSeam(secrets, a, m);
    assert (a + m)[|a + m| - 1] == m[|m| - 1];
    ScrubSeam(secrets, a + m, b);
  }

  /** What happens to the marker of the j-th secret in the rest of the loop. */
  function MarkerLater(secrets: seq<Secret>, j: nat): string
    requires j < |secrets| && forall i :: 0 <= i < |secrets| ==> secrets[i].value != ""
  {
    Scrub(secrets[j + 1..], Marker(secrets[j].kind))
  }

  ghost predicate FreeBefore(secrets: seq<Secret>, i: nat, text: string)
    requires i <= |secrets|
  {
    forall j :: 0 <= j < i ==> !Contains(text, secrets[j].value)
  }

  lemma PieceFree(secrets: seq<Secret>, i: nat, a: string, p: string, b: string)
    requires i <= |secrets| && FreeBefore(secrets, i, a + p + b)
    ensures FreeBefore(secrets, i, p)
  {
    forall j | 0 <= j < i ensures !Contains(p, secrets[j].value) {
      if Contains(p, secrets[j].value) { PieceContains(a, p, b, secrets[j].value); }
    }
  }

  lemma CleanMiddle(secrets: seq<Secret>, a: string, m: string, b: string)
    requires Words(secrets) && Opens(m) && Closes(m)
    requires Clean(secrets, a) && Clean(secrets, m) && Clean(secrets, b)
    ensures Clean(secrets, a + m + b)
  {
    forall i | 0 <= i < |secrets| ensures !Contains(a + m + b, secrets[i].value) {
      ContainsMiddle(a, m, b, secrets[i].value);
    }
  }

  /** From step i on, a text free of the earlier secrets ends clean, if every marker does. */
  lemma {:induction false} RestIsClean(secrets: seq<Secret>, i: nat, text: string)
    requires Words(secrets) && i <= |secrets| && FreeBefore(secrets, i, text)
    requires forall j :: 0 <= j < |secrets| ==> Clean(secrets, MarkerLater(secrets, j))
    ensures Clean(secrets, Scrub(secrets[i..], text))
    decreases |secrets| - i, |text|
  {
    if i < |secrets| {
      var v, kind := secrets[i].value, secrets[i].kind;
      var later := secrets[i + 1..];
      assert secrets[i..][1..] == later;
      if Contains(text, v) {
        var s, r := SplitAtFirst(text, v, Marker(kind));
        assert "" + s + (v + r) == text && (s + v) + r + "" == text;
        PieceFree(secrets, i, "", s, v + r);
        PieceFree(secrets, i, s + v, r, "");
        RestIsClean(secrets, i + 1, s);
        RestIsClean(secrets, i, r);
        ScrubMiddle(later, s, kind, Replace(r, v, Marker(kind)));
        assert Clean(secrets, MarkerLater(secrets, i));
        CleanMiddle(secrets, Scrub(later, s), Scrub(later, Marker(kind)), Scrub(later, Replace(r, v, Marker(kind))));
      } else {
        AbsentReplace(text, v, Marker(kind));
        RestIsClean(secrets, i + 1, text);
      }
    }
  }

  lemma LongerIsAbsent(text: string, v: string)
    requires |v| > |text| || (|v| == |text| && v != text)
    ensures !Contains(text, v)
  {
    forall i: nat ensures !At(text, v, i) {
      if i == 0 && |v| == |text| {
        var k :| 0 <= k < |v| && v[k] != text[k];
        assert text[k] == text[0 + k];
      }
    }
  }

  lemma {:induction false} SkipEarlier(secrets: seq<Secret>, i: nat, text: string)
    requires Words(secrets) && i <= |secrets| && FreeBefore(secrets, i, text)
    ensures Scrub(secrets, text) == Scrub(secrets[i..], text)
    decreases i
  {
    if i == 0 {
      assert secrets[0..] == secrets;
    } else {
      SkipEarlier(secrets, i - 1, text);
      AbsentReplace(text, secrets[i - 1].value, Marker(secrets[i - 1].kind));
      assert secrets[i - 1..][1..] == secrets[i..];
    }
  }

  lemma ReplaceWhole(v: string, m: string)
    requires v != ""
    ensures Replace(v, v, m) == m
  {
    assert At(v, v, 0) && v[|v|..] == "";
  }

  /** Longest first: a secret is replaced whole, never by way of a shorter one inside it. */
  lemma SecretIsReplacedWhole(secrets: seq<Secret>, j: nat)
    requires Proper(secrets) && j < |secrets|
    ensures Scrub(secrets, secrets[j].value) == MarkerLater(secrets, j)
  {
    var v := secrets[j].value;
    forall i | 0 <= i < j ensures !Contains(v, secrets[i].value) { LongerIsAbsent(v, secrets[i].value); }
    SkipEarlier(secrets, j, v);
    ReplaceWhole(v, Marker(secrets[j].kind));
    assert secrets[j..][1..] == secrets[j + 1..];
  }

  /** The loop cleans every text if and only if it cleans each secret by itself. */
  lemma CleansAllIffCleansSecrets(secrets: seq<Secret>)
    requires Proper(secrets)
    ensures (forall text :: Clean(secrets, Scrub(secrets, text)))
            <==> forall j :: 0 <= j < |secrets| ==> Clean(secrets, Scrub(secrets, secrets[j].value))
  {
    if forall j :: 0 <= j < |secrets| ==> Clean(secrets, Scrub(secrets, secrets[j].value)) {
      forall j | 0 <= j < |secrets| ensures Clean(secrets, MarkerLater(secrets, j)) {
        SecretIsReplacedWhole(secrets, j);
      }
      forall text ensures Clean(secrets, Scrub(secrets, text)) {
        RestIsClean(secrets, 0, text);
        assert secrets[0..] == secrets;
      }
    }
  }

  /** No secret lies inside a replacement marker. */
  ghost predicate MarkersAreClean(secrets: seq<Secret>) {
    forall j :: 0 <= j < |secrets| ==> Clean(secrets, Marker(secrets[j].kind))
  }

  lemma MarkerStays(secrets: seq<Secret>, j: nat)
    requires Words(secrets) && j < |secrets| && Clean(secrets, Marker(secrets[j].kind))
    ensures MarkerLater(secrets, j) == Marker(secrets[j].kind)
  {
    var later, m := secrets[j + 1..], Marker(secrets[j].kind);
    assert Clean(later, m) by {
      forall i | 0 <= i < |later| ensures !Contains(m, later[i].value) { assert later[i] == secrets[j + 1 + i]; }
    }
    ScrubAbsent(later, m);
  }

  /** Then every text comes out clean, and every secret comes out as exactly its marker. */
  lemma CleanMarkersSuffice(secrets: seq<Secret>, text: string)
    requires Words(secrets) && MarkersAreClean(secrets)
    ensures Clean(secrets, Scrub(secrets, text))
    ensures Proper(secrets) ==> forall j :: 0 <= j < |secrets| ==>
              Scrub(secrets, secrets[j].value) == Marker(secrets[j].kind)
  {
    forall j | 0 <= j < |secrets| ensures Clean(secrets, MarkerLater(secrets, j)) { MarkerStays(secrets, j); }
    RestIsClean(secrets, 0, text);
    assert secrets[0..] == secrets;
    if Proper(secrets) {
      forall j | 0 <= j < |secrets| ensures Scrub(secrets, secrets[j].value) == Marker(secrets[j].kind) {
        SecretIsReplacedWhole(secrets, j);
        MarkerStays(secrets, j);
      }
    }
  }

  /** No later step re-creates a secret that is gone. */
  lemma {:induction false} NeverRecreated(secrets: seq<Secret>, text: string, w: string)
    requires Words(secrets) && Word(w) && !Contains(text, w)
    requires forall j :: 0 <= j < |secrets| ==> !Contains(Marker(secrets[j].kind), w)
    ensures !Contains(Scrub(secrets, text), w)
    decreases |secrets|
  {
    if secrets != [] {
      MarkerEnds(secrets[0].kind);
      NothingNew(text, secrets[0].value, Marker(secrets[0].kind), w);
      NeverRecreated(secrets[1..], Replace(text, secrets[0].value, Marker(secrets[0].kind)), w);
    }
  }

  /** A secret that is a part of every marker is never removed. */
  lemma RedactedIsNotRedacted(kind: string)
    ensures var secrets := [Secret("redacted", kind)];
            Proper(secrets) && Contains(Scrub(secrets, "redacted"), "redacted")
  {
    var secrets := [Secret("redacted", kind)];
    assert Word("redacted");
    ReplaceWhole("redacted", Marker(kind));
    assert secrets[1..] == [];
    assert Scrub(secrets, "redacted") == Scrub(secrets[1..], Marker(kind)) == Marker(kind);
    assert "<redacted:"[1..9] == "redacted";
    assert At("<redacted:", "redacted", 1);
    PieceContains("", "<redacted:", kind + ">", "redacted");
    assert "" + "<redacted:" + (kind + ">") == Marker(kind);
  }
}

/** The `Redactor` object: what it remembers, and what it does to text and to JSON values. */
module RedactorScript {
  import opened Sql
  import opened TextReplace
  import opened Redaction

  const MIN_SECRET_LENGTH := 8

  predicate Registered(secrets: seq<Secret>, value: string) {
    exists i :: 0 <= i < |secrets| && secrets[i].value == value
  }

  /** A dictionary from long enough values to kinds, in insertion order. */
  ghost predicate Dictionary(secrets: seq<Secret>) {
    && (forall i :: 0 <= i < |secrets| ==> |secrets[i].value| >= MIN_SECRET_LENGTH)
    && (forall i, j :: 0 <= i < j < |secrets| ==> secrets[i].value != secrets[j].value)
  }

  /** A stable sort, longest value first. */
  function Insert(sorted: seq<Secret>, x: Secret): seq<Secret>
    decreases |sorted|
  {
    if sorted == [] then [x]
    else
      var n := |sorted| - 1;
      if |sorted[n].value| >= |x.value| then sorted + [x] else Insert(sorted[..n], x) + [sorted[n]]
  }

  function LongestFirst(secrets: seq<Secret>): seq<Secret>
    decreases |secrets|
  {
    if secrets == [] then [] else Insert(LongestFirst(secrets[..|secrets| - 1]), secrets[|secrets| - 1])
  }

  ghost predicate SortedDistinct(secrets: seq<Secret>) {
    forall i, j :: 0 <= i < j < |secrets| ==>
      |secrets[i].value| >= |secrets[j].value| && secrets[i].value != secrets[j].value
  }

  lemma {:induction false} InsertKeeps(sorted: seq<Secret>, x: Secret)
    requires SortedDistinct(sorted) && !Registered(sorted, x.value)
    ensures SortedDistinct(Insert(sorted, x))
    ensures forall y :: y in Insert(sorted, x) <==> y in sorted || y == x
    decreases |sorted|
  {
    if sorted != [] {
      var n := |sorted| - 1;
      assert sorted == sorted[..n] + [sorted[n]];
      if |sorted[n].value| < |x.value| {
        assert !Registered(sorted[..n], x.value) by {
          forall i | 0 <= i < n ensures sorted[..n][i].value != x.value { assert sorted[i].value != x.value; }
        }
        InsertKeeps(sorted[..n], x);
        var front := Insert(sorted[..n], x);
        forall i | 0 <= i < |front| ensures |front[i].value| >= |sorted[n].value| && front[i].value != sorted[n].value {
          assert front[i] in front;
        }
      }
    }
  }

  lemma {:induction false} LongestFirstKeeps(secrets: seq<Secret>)
    requires Dictionary(secrets)
    ensures SortedDistinct(LongestFirst(secrets))
    ensures forall y :: y in LongestFirst(secrets) <==> y in secrets
    decreases |secrets|
  {
    if secrets != [] {
      var n := |secrets| - 1;
      LongestFirstKeeps(secrets[..n]);
      assert secrets == secrets[..n] + [secrets[n]];
      var front := LongestFirst(secrets[..n]);
      forall i | 0 <= i < |front| ensures front[i].value != secrets[n].value {
        assert front[i] in front && front[i] in secrets[..n];
      }
      InsertKeeps(front, secrets[n]);
    }
  }

  /** What the redactor asks for when no secret contains a bracket or lies inside a marker. */
  ghost predicate WellChosen(secrets: seq<Secret>) {
    && (forall i :: 0 <= i < |secrets| ==> BracketFree(secrets[i].value))
    && MarkersAreClean(secrets)
  }

  lemma SameSecrets(secrets: seq<Secret>, text: string)
    requires Dictionary(secrets)
    ensures Clean(LongestFirst(secrets), text) <==> Clean(secrets, text)
  {
    var sorted := LongestFirst(secrets);
    LongestFirstKeeps(secrets);
    if Clean(secrets, text) {
      forall i | 0 <= i < |sorted| ensures !Contains(text, sorted[i].value) { assert sorted[i] in secrets; }
    }
    if Clean(sorted, text) {
      forall i | 0 <= i < |secrets| ensures !Contains(text, secrets[i].value) { assert secrets[i] in sorted; }
    }
  }

  lemma SortedIsWellChosen(secrets: seq<Secret>)
    requires Dictionary(secrets) && (forall i :: 0 <= i < |secrets| ==> BracketFree(secrets[i].value))
    ensures Proper(LongestFirst(secrets))
    ensures MarkersAreClean(secrets) ==> MarkersAreClean(LongestFirst(secrets))
  {
    var sorted := LongestFirst(secrets);
    LongestFirstKeeps(secrets);
    forall i | 0 <= i < |sorted| ensures Word(sorted[i].value) { assert sorted[i] in secrets; }
    if MarkersAreClean(secrets) {
      forall j | 0 <= j < |sorted| ensures Clean(sorted, Marker(sorted[j].kind)) {
        assert sorted[j] in secrets;
        SameSecrets(secrets, Marker(sorted[j].kind));
      }
    }
  }

  /** `scrub_text` without the host replacement. */
  function ScrubText(secrets: seq<Secret>, text: string): string
    requires Dictionary(secrets)
  {
    LongestFirstKeeps(secrets);
    Sortable(secrets);
    Scrub(LongestFirst(secrets), text)
  }

  lemma Sortable(secrets: seq<Secret>)
    requires Dictionary(secrets)
    ensures forall i :: 0 <= i < |LongestFirst(secrets)| ==> LongestFirst(secrets)[i].value != ""
  {
    var sorted := LongestFirst(secrets);
    LongestFirstKeeps(secrets);
    forall i | 0 <= i < |sorted| ensures sorted[i].value != "" { assert sorted[i] in secrets; }
  }

  /** Well chosen secrets: no registered secret is left in any text. */
  lemma ScrubTextIsClean(secrets: seq<Secret>, text: string)
    requires Dictionary(secrets) && WellChosen(secrets)
    ensures Clean(secrets, ScrubText(secrets, text))
  {
    SortedIsWellChosen(secrets);
    Sortable(secrets);
    CleanMarkersSuffice(LongestFirst(secrets), text);
    SameSecrets(secrets, ScrubText(secrets, text));
  }

  ghost predicate CleansEveryText(secrets: seq<Secret>)
    requires Dictionary(secrets)
  {
    forall text :: Clean(secrets, ScrubText(secrets, text))
  }

  ghost predicate CleansItself(secrets: seq<Secret>)
    requires Dictionary(secrets)
  {
    forall i :: 0 <= i < |secrets| ==> Clean(secrets, ScrubText(secrets, secrets[i].value))
  }

  lemma SortedCleansItself(secrets: seq<Secret>, sorted: seq<Secret>, j: nat)
    requires Dictionary(secrets) && CleansItself(secrets) && sorted == LongestFirst(secrets) && j < |sorted|
    requires forall i :: 0 <= i < |sorted| ==> sorted[i].value != ""
    ensures Clean(sorted, Scrub(sorted, sorted[j].value))
  {
    LongestFirstKeeps(secrets);
    assert sorted[j] in secrets;
    var i :| 0 <= i < |secrets| && secrets[i] == sorted[j];
    SameSecrets(secrets, ScrubText(secrets, secrets[i].value));
  }

  /** The exact condition: scrubbing each registered secret by itself leaves none. */
  lemma ScrubTextIsCleanIff(secrets: seq<Secret>)
    requires Dictionary(secrets) && forall i :: 0 <= i < |secrets| ==> BracketFree(secrets[i].value)
    ensures CleansEveryText(secrets) <==> CleansItself(secrets)
  {
    if CleansItself(secrets) {
      var sorted := LongestFirst(secrets);
      SortedIsWellChosen(secrets);
      forall j | 0 <= j < |sorted| ensures Clean(sorted, Scrub(sorted, sorted[j].value)) {
        SortedCleansItself(secrets, sorted, j);
      }
      CleansAllIffCleansSecrets(sorted);
      forall text ensures Clean(secrets, ScrubText(secrets, text)) {
        assert Clean(sorted, Scrub(sorted, text));
        SameSecrets(secrets, ScrubText(secrets, text));
      }
    }
  }

  // ---------------------------------------------------------------- JSON values

  datatype Json =
    Null | Bool(b: bool) | Number(n: int) | Text(s: string) | List(items: seq<Json>) | Object(fields: seq<Field>)
  datatype Field = Field(key: string, value: Json)

  /** `value.get("redacted") is True` */
  predicate IsMask(j: Json) {
    j.Object? && exists i :: 0 <= i < |j.fields| && j.fields[i] == Field("redacted", Bool(true))
  }

  /** Presence and length only. `width` is the length of a value printed as text. */
  function Mask(j: Json, width: Json -> nat): Json {
    if j == Null || j == Text("") then Object([Field("redacted", Bool(true)), Field("present", Bool(false))])
    else Object([Field("redacted", Bool(true)), Field("present", Bool(true)), Field("length", Number(width(j)))])
  }

  /** The recursive scrub. `sensitive` says which keys are masked. */
  function ScrubJson(secrets: seq<Secret>, sensitive: string -> bool, width: Json -> nat, j: Json): Json
    requires Dictionary(secrets)
    decreases j
  {
    match j
    case Text(s) => Text(ScrubText(secrets, s))
    case List(items) =>
      List(seq(|items|, i requires 0 <= i < |items| => ScrubJson(secrets, sensitive, width, items[i])))
    case Object(fields) =>
      Object(seq(|fields|, i requires 0 <= i < |fields| =>
        var f := fields[i];
        Field(f.key, if sensitive(f.key) then (if IsMask(f.value) then f.value else Mask(f.value, width))
                     else ScrubJson(secrets, sensitive, width, f.value))))
    case _ => j
  }

  /** No string leaf holds a secret, and sensitive keys hold masks only. Keys are not looked at. */
  ghost predicate CleanLeaves(secrets: seq<Secret>, sensitive: string -> bool, j: Json) {
    match j
    case Text(s) => Clean(secrets, s)
    case List(items) => forall i :: 0 <= i < |items| ==> CleanLeaves(secrets, sensitive, items[i])
    case Object(fields) =>
      forall i :: 0 <= i < |fields| ==>
        if sensitive(fields[i].key) then IsMask(fields[i].value) else CleanLeaves(secrets, sensitive, fields[i].value)
    case _ => true
  }

  /** Same nesting, same keys in the same order, same leaves other than strings and masked values. */
  ghost predicate SameShape(sensitive: string -> bool, a: Json, b: Json) {
    match (a, b)
    case (Text(_), Text(_)) => true
    case (List(x), List(y)) => |x| == |y| && forall i :: 0 <= i < |x| ==> SameShape(sensitive, x[i], y[i])
    case (Object(x), Object(y)) =>
      |x| == |y| && forall i :: 0 <= i < |x| ==>
        x[i].key == y[i].key && (sensitive(x[i].key) || SameShape(sensitive, x[i].value, y[i].value))
    case (_, _) => a == b
  }

  lemma MaskIsMask(j: Json, width: Json -> nat)
    ensures IsMask(Mask(j, width))
  {
    assert Mask(j, width).fields[0] == Field("redacted", Bool(true));
  }

  /** The whole evidence document comes out with clean leaves and its own shape. */
  lemma {:induction false} ScrubJsonIsClean(secrets: seq<Secret>, sensitive: string -> bool, width: Json -> nat,
                                            j: Json)
    requires Dictionary(secrets) && WellChosen(secrets)
    ensures CleanLeaves(secrets, sensitive, ScrubJson(secrets, sensitive, width, j))
    ensures SameShape(sensitive, j, ScrubJson(secrets, sensitive, width, j))
    decreases j
  {
    match j
    case Text(s) => ScrubTextIsClean(secrets, s);
    case List(items) =>
      forall i | 0 <= i < |items|
        ensures CleanLeaves(secrets, sensitive, ScrubJson(secrets, sensitive, width, items[i]))
             && SameShape(sensitive, items[i], ScrubJson(secrets, sensitive, width, items[i]))
      {
        ScrubJsonIsClean(secrets, sensitive, width, items[i]);
      }
    case Object(fields) =>
      forall i | 0 <= i < |fields| && !sensitive(fields[i].key)
        ensures CleanLeaves(secrets, sensitive, ScrubJson(secrets, sensitive, width, fields[i].value))
             && SameShape(sensitive, fields[i].value, ScrubJson(secrets, sensitive, width, fields[i].value))
      {
        ScrubJsonIsClean(secrets, sensitive, width, fields[i].value);
      }
      forall i | 0 <= i < |fields| ensures IsMask(Mask(fields[i].value, width)) { MaskIsMask(fields[i].value, width); }
    case _ =>
  }

  // ---------------------------------------------------------------- the object

  class Redactor {
    var secrets: seq<Secret>

    constructor ()
      ensures secrets == []
    {
      secrets := [];
    }

    /** Short values and None are ignored; the first kind of a value stays. */
    method Register(value: Option<string>, kind: string)
      requires Dictionary(secrets)
      modifies this
      ensures Dictionary(secrets)
      ensures secrets == if value.Some? && |value.value| >= MIN_SECRET_LENGTH && !Registered(old(secrets), value.value)
                         then old(secrets) + [Secret(value.value, kind)] else old(secrets)
    {
      if value.Some? && |value.value| >= MIN_SECRET_LENGTH && !Registered(secrets, value.value) {
        secrets := secrets + [Secret(value.value, kind)];
      }
    }

    /** `scrub_text` */
    method Rewrite(text: string) returns (r: string)
      requires Dictionary(secrets)
      ensures r == ScrubText(secrets, text)
      ensures WellChosen(secrets) ==> Clean(secrets, r)
    {
      var sorted := LongestFirst(secrets);
      Sortable(secrets);
      r := text;
      var i := 0;
      assert sorted[0..] == sorted;
      while i < |sorted|
        invariant 0 <= i <= |sorted|
        invariant Scrub(sorted[i..], r) == ScrubText(secrets, text)
      {
        assert sorted[i..][1..] == sorted[i + 1..];
        var value, kind := sorted[i].value, sorted[i].kind;
        if exists k :: 0 <= k <= |r| && At(r, value, k) {
          r := Replace(r, value, Marker(kind));
        } else {
          AbsentReplace(r, value, Marker(kind));
        }
        i := i + 1;
      }
      if WellChosen(secrets) { ScrubTextIsClean(secrets, text); }
    }
  }
}
