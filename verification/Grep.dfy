/**
 user/grep.c: the matcher against the language its patterns denote, and the line-buffering loop
 against the lines of its whole input.
 */
module Grep {

  // ---- what a pattern means ----

  /** One character, or any number of them; '.' stands for every character. */
  datatype Item = One(c: char) | Star(c: char)

  predicate Fits(c: char, x: char) { c == '.' || c == x }

  /** The pattern's items; a final $ is not one of them. */
  function Items(re: string): seq<Item>
    decreases |re|
  {
    if re == "" || re == "$" then []
    else if |re| >= 2 && re[1] == '*' then [Star(re[0])] + Items(re[2..])
    else [One(re[0])] + Items(re[1..])
  }

  /** Does the pattern end in a $ that is not part of another item? */
  predicate ToEnd(re: string)
    decreases |re|
  {
    if re == "" then false
    else if re == "$" then true
    else if |re| >= 2 && re[1] == '*' then ToEnd(re[2..])
    else ToEnd(re[1..])
  }

  predicate AllFit(c: char, w: string) { forall k :: 0 <= k < |w| ==> Fits(c, w[k]) }

  /** w is a concatenation of one string for each item. */
  ghost predicate InLang(items: seq<Item>, w: string)
    decreases |items|
  {
    if items == [] then w == ""
    else
      exists k: nat :: k <= |w| && Matches(items[0], w[..k]) && InLang(items[1..], w[k..])
  }

  predicate Matches(i: Item, w: string) {
    match i case One(c) => |w| == 1 && Fits(c, w[0]) case Star(c) => AllFit(c, w)
  }

  /** The first j characters of text are in the pattern's language, and are all of it if the pattern says so. */
  ghost predicate HereUpTo(re: string, text: string, j: nat) {
    j <= |text| && InLang(Items(re), text[..j]) && (ToEnd(re) ==> j == |text|)
  }

  ghost predicate Here(re: string, text: string) {
    exists j: nat :: HereUpTo(re, text, j)
  }

  /** Some part of text is in the language; the start and the end of text are held to by ^ and $. */
  ghost predicate Found(re: string, text: string) {
    if re != "" && re[0] == '^' then Here(re[1..], text)
    else exists i: nat :: i <= |text| && Here(re, text[i..])
  }

  // ---- the matcher ----

  lemma HereNone(re: string, text: string)
    requires re == "" || re == "$"
    ensures Here(re, text) <==> (re == "$" ==> text == "")
  {
    if re == "" { assert HereUpTo(re, text, 0); }
    if text == "" { assert HereUpTo(re, text, 0); }
  }

  lemma Middle(t: string, k: nat, j: nat)
    requires k <= j <= |t|
    ensures t[..j][k..] == t[k..][..j - k] && t[..j][..k] == t[..k]
  {
  }

  lemma HereOne(re: string, text: string)
    requires re != "" && re != "$" && !(|re| >= 2 && re[1] == '*')
    ensures Here(re, text) <==> text != "" && Fits(re[0], text[0]) && Here(re[1..], text[1..])
  {
    var items := Items(re);
    assert items[1..] == Items(re[1..]);
    if Here(re, text) {
      var j: nat :| HereUpTo(re, text, j);
      var w := text[..j];
      var k: nat :| k <= |w| && Matches(items[0], w[..k]) && InLang(items[1..], w[k..]);
      Middle(text, 1, j);
      assert HereUpTo(re[1..], text[1..], j - 1);
    }
    if text != "" && Fits(re[0], text[0]) && Here(re[1..], text[1..]) {
      var j: nat :| HereUpTo(re[1..], text[1..], j);
      var w := text[..j + 1];
      Middle(text, 1, j + 1);
      assert Matches(items[0], w[..1]);
      assert HereUpTo(re, text, j + 1);
    }
  }

  /** c* followed by re matches where some run of c is followed by re. */
  lemma HereStar(re: string, text: string)
    requires |re| >= 2 && re[1] == '*'
    ensures Here(re, text) <==> exists k: nat :: k <= |text| && AllFit(re[0], text[..k]) && Here(re[2..], text[k..])
  {
    var items := Items(re);
    assert items[1..] == Items(re[2..]);
    if Here(re, text) {
      var j: nat :| HereUpTo(re, text, j);
      var w := text[..j];
      var k: nat :| k <= |w| && Matches(items[0], w[..k]) && InLang(items[1..], w[k..]);
      Middle(text, k, j);
      assert HereUpTo(re[2..], text[k..], j - k);
    }
    if exists k: nat :: k <= |text| && AllFit(re[0], text[..k]) && Here(re[2..], text[k..]) {
      var k: nat :| k <= |text| && AllFit(re[0], text[..k]) && Here(re[2..], text[k..]);
      var j: nat :| HereUpTo(re[2..], text[k..], j);
      var w := text[..k + j];
      Middle(text, k, k + j);
      assert Matches(items[0], w[..k]);
      assert HereUpTo(re, text, k + j);
    }
  }

  /** matchhere: does a prefix of text match re? */
  method MatchHere(re: string, text: string) returns (r: bool)
    ensures r == Here(re, text)
    decreases |re|, 0
  {
    if re == "" {
      HereNone(re, text);
      return true;
    }
    if |re| >= 2 && re[1] == '*' {
      r := MatchStar(re[0], re[2..], text, re);
      return;
    }
    if re[0] == '$' && |re| == 1 {
      HereNone(re, text);
      return text == "";
    }
    HereOne(re, text);
    if text != "" && (re[0] == '.' || re[0] == text[0]) {
      r := MatchHere(re[1..], text[1..]);
      return;
    }
    return false;
  }

  /** matchstar: does a prefix of text match c*re? */
  method MatchStar(c: char, re: string, text: string, ghost whole: string) returns (r: bool)
    requires |whole| >= 2 && whole[1] == '*' && whole[0] == c && whole[2..] == re
    ensures r == Here(whole, text)
    decreases |re|, 1
  {
    HereStar(whole, text);
    var k := 0;
    while true
      invariant 0 <= k <= |text| && AllFit(c, text[..k])
      invariant forall i: nat :: i < k ==> !Here(re, text[i..])
      decreases |text| - k
    {
      var found := MatchHere(re, text[k..]);
      if found { return true; }
      if k == |text| || !(text[k] == c || c == '.') { break; }
      k := k + 1;
    }
    assert k < |text| ==> !Fits(c, text[k]);
    return false;
  }

  /** match: does re match anywhere in text? */
  method Match(re: string, text: string) returns (r: bool)
    ensures r == Found(re, text)
  {
    if re != "" && re[0] == '^' {
      r := MatchHere(re[1..], text);
      return;
    }
    var i := 0;
    while i <= |text|
      invariant 0 <= i <= |text| + 1 && forall k: nat :: k < i && k <= |text| ==> !Here(re, text[k..])
    {
      var found := MatchHere(re, text[i..]);
      if found { return true; }
      i := i + 1;
    }
    return false;
  }

  // ---- lines ----

  const ROOM := 1023      // sizeof(buf) - 1

  /** The index of the first newline, or the length. */
  function Newline(t: string): (k: nat)
    ensures k <= |t| && (k < |t| ==> t[k] == '\n') && forall i :: 0 <= i < k ==> t[i] != '\n'
  {
    if t == "" || t[0] == '\n' then 0 else 1 + Newline(t[1..])
  }

  /** The matching lines of t, each with its newline; what follows the last newline is not a line. */
  ghost function Grepped(re: string, t: string): string
    decreases |t|
  {
    var k := Newline(t);
    if k == |t| then "" else (if Found(re, t[..k]) then t[..k + 1] else "") + Grepped(re, t[k + 1..])
  }

  predicate LineStart(t: string, i: nat) { i <= |t| && (i == 0 || t[i - 1] == '\n') }

  /** No line is too long for the buffer: none has ROOM characters without a newline, and more to come. */
  ghost predicate LinesFit(t: string) {
    forall i: nat :: LineStart(t, i) && i + ROOM < |t| ==> Newline(t[i..]) < ROOM
  }

  /** A line of 1024 characters does not fit, and grep stops reading there. */
  lemma LongLineStops()
    ensures !LinesFit(seq(1024, _ => 'x'))
  {
    var t := seq(1024, _ => 'x');
    assert t[0..] == t && Newline(t) == |t|;
    assert LineStart(t, 0);
  }

  lemma NewlineAt(t: string, k: nat)
    requires k < |t| && t[k] == '\n' && forall i :: 0 <= i < k ==> t[i] != '\n'
    ensures Newline(t) == k
  {
  }

  /** A line, if it matches. */
  ghost function Kept(re: string, line: string): string
    requires line != ""
  {
    if Found(re, line[..|line| - 1]) then line else ""
  }

  lemma GreppedFirst(re: string, t: string, k: nat)
    requires k < |t| && Newline(t) == k
    ensures Grepped(re, t) == Kept(re, t[..k + 1]) + Grepped(re, t[k + 1..])
  {
    hide Found;
    assert t[..k + 1][..k] == t[..k];
  }

  /** Lines are dealt with one by one, from the front or from the back. */
  lemma {:induction false} GreppedMore(re: string, a: string, line: string)
    requires LineStart(a, |a|) && line != "" && Newline(line) == |line| - 1
    ensures Grepped(re, a + line) == Grepped(re, a) + Kept(re, line)
    decreases |a|
  {
    hide Found, Grepped, Kept, Newline;
    var t := a + line;
    if a == "" {
      assert t == line && line[..|line|] == line && line[|line|..] == "";
      GreppedFirst(re, line, |line| - 1);
      GreppedNone(re, "");
      assert Kept(re, line) + "" == Kept(re, line) == "" + Kept(re, line);
    } else {
      var k := Newline(a);
      assert k < |a|;
      NewlineAt(t, k);
      assert t[..k + 1] == a[..k + 1] && t[k + 1..] == a[k + 1..] + line;
      GreppedFirst(re, a, k);
      GreppedFirst(re, t, k);
      GreppedMore(re, a[k + 1..], line);
    }
  }

  lemma GreppedNone(re: string, t: string)
    requires forall i :: 0 <= i < |t| ==> t[i] != '\n'
    ensures Grepped(re, t) == ""
  {
    hide Found;
  }

  /** How much of the input has been read, and how far its lines have been dealt with. */
  ghost predicate Progress(re: string, input: string, s: nat, c: nat, out: string) {
    && s <= c <= |input| && LineStart(input, s) && out == Grepped(re, input[..s])
    && forall i: nat :: i < s && LineStart(input, i) ==> Newline(input[i..]) < ROOM
  }

  lemma NoProgress(re: string, input: string)
    ensures Progress(re, input, 0, 0, "")
  {
    hide Found;
    GreppedNone(re, "");
  }

  lemma MoreRead(re: string, input: string, s: nat, c: nat, out: string, n: nat)
    requires Progress(re, input, s, c, out) && c + n <= |input|
    ensures Progress(re, input, s, c + n, out)
  {
    hide Grepped;
  }

  lemma TailAddsNothing(re: string, input: string, s: nat, c: nat, out: string)
    requires Progress(re, input, s, c, out) && forall i :: s <= i < c && i < |input| ==> input[i] != '\n'
    ensures c <= |input| && out == Grepped(re, input[..c])
  {
    hide Grepped;
    assert input[..c] == input[..s] + input[s..c];
    GreppedTail(re, input[..s], input[s..c]);
  }

  lemma NotStart(input: string, s: nat, e: nat, i: nat)
    requires s < i <= e <= |input| && forall k :: s <= k < e ==> input[k] != '\n'
    ensures !LineStart(input, i)
  {
  }

  /** The line that starts at s is dealt with. */
  lemma LineDone(re: string, input: string, s: nat, c: nat, out: string, e: nat, out': string)
    requires Progress(re, input, s, c, out) && s <= e < c && c <= s + ROOM
    requires input[e] == '\n' && (forall i :: s <= i < e ==> input[i] != '\n')
    requires out' == out + Kept(re, input[s..e + 1])
    ensures Progress(re, input, e + 1, c, out')
  {
    hide Kept, Grepped;
    var line := input[s..e + 1];
    NewlineAt(line, e - s);
    NewlineAt(input[s..], e - s);
    assert input[..s] + line == input[..e + 1];
    GreppedMore(re, input[..s], line);
    forall i: nat | s < i <= e ensures !LineStart(input, i) { NotStart(input, s, e, i); }
  }

  /** All input is read exactly if its lines fit. */
  lemma ReadAll(re: string, input: string, s: nat, c: nat, out: string)
    requires Progress(re, input, s, c, out) && c - s <= ROOM && (c == |input| || c - s == ROOM)
    requires forall i :: s <= i < c ==> input[i] != '\n'
    ensures c == |input| <==> LinesFit(input)
  {
    if c == |input| {
      forall i: nat | s < i <= c ensures !LineStart(input, i) { NotStart(input, s, c, i); }
    } else {
      assert Newline(input[s..]) >= ROOM by {
        assert forall k :: 0 <= k < ROOM ==> input[s..][k] == input[s + k];
      }
      assert LineStart(input, s) && s + ROOM < |input|;
    }
  }

  /** What follows the last newline adds nothing. */
  lemma {:induction false} GreppedTail(re: string, a: string, b: string)
    requires LineStart(a, |a|) && forall i :: 0 <= i < |b| ==> b[i] != '\n'
    ensures Grepped(re, a + b) == Grepped(re, a)
    decreases |a|
  {
    hide Found, Grepped, Kept, Newline;
    var t := a + b;
    if a == "" {
      assert t == b;
      GreppedNone(re, b);
      GreppedNone(re, a);
    } else {
      var k := Newline(a);
      assert k < |a|;
      NewlineAt(t, k);
      assert t[..k + 1] == a[..k + 1] && t[k + 1..] == a[k + 1..] + b;
      GreppedFirst(re, a, k);
      GreppedFirst(re, t, k);
      GreppedTail(re, a[k + 1..], b);
    }
  }

  /** strchr: the first newline at p or after, or the end of the string at m. */
  method FindNewline(buf: array<char>, p: nat, m: nat) returns (q: nat)
    requires p <= m < buf.Length && buf[m] == '\0' && forall i :: p <= i < m ==> buf[i] != '\0'
    ensures p <= q <= m && (q < m ==> buf[q] == '\n') && forall i :: p <= i < q ==> buf[i] != '\n'
  {
    q := p;
    while buf[q] != '\0'
      invariant p <= q <= m && forall i :: p <= i < q ==> buf[i] != '\n'
      decreases m - q
    {
      if buf[q] == '\n' { return; }
      q := q + 1;
    }
  }

  /**
   grep: read the input in pieces of whatever size read returns, and write the matching lines. c is how
   much was read. The input holds no NUL.
   */
  method Grep(pattern: string, input: string, buf: array<char>) returns (out: string, c: nat)
    requires buf.Length == ROOM + 1 && '\0' !in input
    modifies buf
    ensures c <= |input| && out == Grepped(pattern, input[..c])
    ensures c == |input| <==> LinesFit(input)
  {
    hide Grepped, LinesFit, Progress, Found, Window;
    out := "";
    c := 0;
    var m := 0;
    ghost var s: nat := 0;
    NoProgress(pattern, input);
    NoWindow(buf[..], input);
    while m < ROOM && c < |input|
      invariant 0 <= m <= ROOM && m == c - s && c <= |input| && Progress(pattern, input, s, c, out)
      invariant Window(buf[..], 0, m, input, s, c) && forall i :: s <= i < c ==> input[i] != '\n'
      decreases |input| - c
    {
      var n :| 1 <= n <= ROOM - m && n <= |input| - c;
      Read(input, s, c, n, buf, m);
      MoreRead(pattern, input, s, c, out, n);
      m := m + n;
      c := c + n;
      var p;
      out, p := Lines(pattern, input, s, c, out, buf, m);
      ghost var b := buf[..];
      m := Shift(buf, p, m);
      WindowMoved(b, buf[..], p, p + m, input, s + p, c);
      s := s + p;
    }
    ReadAll(pattern, input, s, c, out);
    TailAddsNothing(pattern, input, s, c, out);
  }

  /** b[p..m] is input from i to j. */
  ghost predicate Window(b: seq<char>, p: nat, m: nat, input: string, i: nat, j: nat) {
    p <= m <= |b| && i <= j <= |input| && m - p == j - i && b[p..m] == input[i..j]
  }

  /** The lines in buf[..m], which is input from s to c. */
  method Lines(pattern: string, ghost input: string, ghost s: nat, ghost c: nat, out0: string, buf: array<char>, m: nat)
    returns (out: string, p: nat)
    requires buf.Length == ROOM + 1 && m <= ROOM && m == c - s && buf[m] == '\0' && '\0' !in input
    requires Progress(pattern, input, s, c, out0) && Window(buf[..], 0, m, input, s, c)
    modifies buf
    ensures p <= m && Progress(pattern, input, s + p, c, out) && Window(buf[..], p, m, input, s + p, c)
    ensures forall i :: s + p <= i < c ==> input[i] != '\n'
  {
    hide Grepped, Found, Progress, Window, Kept;
    out := out0;
    p := 0;
    NoNul(buf[..], p, m, input, s + p, c);
    var q := FindNewline(buf, p, m);
    while q < m
      invariant p <= q <= m && buf[m] == '\0' && Window(buf[..], p, m, input, s + p, c)
      invariant (q < m ==> buf[q] == '\n') && forall i :: p <= i < q ==> buf[i] != '\n'
      invariant Progress(pattern, input, s + p, c, out)
      decreases m - p
    {
      out := OneLine(pattern, input, s + p, c, buf, p, q, m, out);
      p := q + 1;
      NoNul(buf[..], p, m, input, s + p, c);
      q := FindNewline(buf, p, m);
    }
    NoneLeft(buf[..], p, m, input, s + p, c);
  }

  /** Cut the line buf[p..q] out with a NUL; write it, its newline back in place, if it matches. */
  method OneLine(pattern: string, ghost input: string, ghost i: nat, ghost c: nat, buf: array<char>, p: nat, q: nat,
      m: nat, out0: string)
    returns (out: string)
    requires p <= q < m < buf.Length && m <= ROOM && buf[q] == '\n' && forall k :: p <= k < q ==> buf[k] != '\n'
    requires Progress(pattern, input, i, c, out0) && Window(buf[..], p, m, input, i, c)
    modifies buf
    ensures Progress(pattern, input, i + (q - p) + 1, c, out) && Window(buf[..], q + 1, m, input, i + (q - p) + 1, c)
    ensures buf[m] == old(buf[m])
  {
    hide Found, Grepped, Progress, Window;
    ghost var b := buf[..];
    LineSplits(b, p, m, input, i, c, q);
    ghost var line := b[p..q + 1];
    out := out0;
    buf[q] := '\0';
    var found := Match(pattern, buf[p..q]);
    assert line[..|line| - 1] == buf[p..q];
    if found {
      buf[q] := '\n';
      out := out + buf[p..q + 1];
      assert buf[p..q + 1] == line;
    }
    assert out == out0 + Kept(pattern, line);
    LineDone(pattern, input, i, c, out0, i + (q - p), out);
    WindowRest(b, buf[..], p, m, input, i, c, q);
  }

  /** read(fd, buf+m, ...) returns n bytes; terminate the string. */
  method Read(input: string, ghost s: nat, c: nat, n: nat, buf: array<char>, m: nat)
    requires m + n < buf.Length && c + n <= |input| && Window(buf[..], 0, m, input, s, c)
    modifies buf
    ensures Window(buf[..], 0, m + n, input, s, c + n) && buf[m + n] == '\0'
  {
    var k := 0;
    assert buf[..][0..m] == buf[..m];
    while k < n
      invariant 0 <= k <= n && buf[..m + k] == input[s..c + k]
    {
      buf[m + k] := input[c + k];
      k := k + 1;
    }
    buf[m + n] := '\0';
    assert buf[..][0..m + n] == buf[..m + n];
  }

  /** memmove of what is left to the front. */
  method Shift(buf: array<char>, p: nat, m: nat) returns (left: nat)
    requires p <= m <= buf.Length
    modifies buf
    ensures left == m - p && buf[..][..left] == old(buf[..])[p..m]
  {
    left := m - p;
    ghost var b := buf[..];
    var i := 0;
    while i < left
      invariant 0 <= i <= left && (forall k :: 0 <= k < i ==> buf[k] == b[p + k])
      invariant forall k :: p + i <= k < m ==> buf[k] == b[k]
    {
      buf[i] := buf[p + i];
      i := i + 1;
    }
    assert forall k :: 0 <= k < left ==> buf[..][..left][k] == b[p..m][k];
  }

  lemma NoNul(b: seq<char>, p: nat, m: nat, input: string, i: nat, j: nat)
    requires Window(b, p, m, input, i, j) && '\0' !in input
    ensures m <= |b| && forall k :: p <= k < m ==> b[k] != '\0'
  {
    forall k | p <= k < m ensures b[k] != '\0' {
      assert b[p..m][k - p] == input[i..j][k - p] == input[i + (k - p)] && input[i + (k - p)] in input;
    }
  }

  lemma NoneLeft(b: seq<char>, p: nat, m: nat, input: string, i: nat, j: nat)
    requires Window(b, p, m, input, i, j) && forall k :: p <= k < m ==> b[k] != '\n'
    ensures j <= |input| && forall k :: i <= k < j ==> input[k] != '\n'
  {
    forall k | i <= k < j ensures input[k] != '\n' {
      assert b[p..m][k - i] == b[p + (k - i)] && input[i..j][k - i] == input[k];
    }
  }

  /** The first line of a window. */
  lemma LineSplits(b: seq<char>, p: nat, m: nat, input: string, i: nat, j: nat, q: nat)
    requires p <= q < m && Window(b, p, m, input, i, j) && b[q] == '\n' && forall k :: p <= k < q ==> b[k] != '\n'
    ensures var e := i + (q - p);
            e < j <= |input| && j - i <= m && input[e] == '\n' && (forall k :: i <= k < e ==> input[k] != '\n')
                && b[p..q + 1] == input[i..e + 1]
  {
    var e := i + (q - p);
    assert b[p..m][..q + 1 - p] == b[p..q + 1] && input[i..j][..q + 1 - p] == input[i..e + 1];
    assert b[p..m][q - p] == b[q] && input[i..j][q - p] == input[e];
    forall k | i <= k < e ensures input[k] != '\n' {
      assert b[p..m][k - i] == b[p + (k - i)] && input[i..j][k - i] == input[k];
    }
  }

  lemma NoWindow(b: seq<char>, input: string)
    ensures Window(b, 0, 0, input, 0, 0)
  {
  }

  lemma WindowMoved(b: seq<char>, b': seq<char>, p: nat, m: nat, input: string, i: nat, j: nat)
    requires Window(b, p, m, input, i, j) && m - p <= |b'| && b'[..m - p] == b[p..m]
    ensures Window(b', 0, m - p, input, i, j)
  {
    assert b'[0..m - p] == b'[..m - p];
  }

  lemma WindowRest(b: seq<char>, b': seq<char>, p: nat, m: nat, input: string, i: nat, j: nat, q: nat)
    requires p <= q < m && Window(b, p, m, input, i, j) && |b'| == |b| && b' == b[q := b'[q]]
    ensures Window(b', q + 1, m, input, i + (q - p) + 1, j)
  {
    assert b'[q + 1..m] == b[q + 1..m] == b[p..m][q + 1 - p..] == input[i..j][q + 1 - p..];
  }
}
