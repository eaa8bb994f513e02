/**
 The parser of user/sh.c as it runs: over a NUL-terminated buffer, advancing a position, and at the
 end writing NULs into the buffer. Its results are those of ShellSyntax on the tokens of the text.
 */
module Shell {
  import opened ShellGrammar
  import opened ShellSyntax

  datatype Option<T> = None | Some(value: T)

  /** A word of the text: the pointers q and eq. */
  datatype Slice = Slice(q: nat, eq: nat)

  const NUL: char := '\0'

  predicate IsSpace(c: char) { c == ' ' || c == '\t' || c == '\r' || c == '\n' || c == '\U{000B}' }

  predicate IsSym(c: char) { c in "<|>&;()" }

  // ---- tokens of a text ----

  function Skip(t: string, p: nat): (q: nat)
    requires p <= |t|
    ensures p <= q <= |t| && (q < |t| ==> !IsSpace(t[q])) && (forall k :: p <= k < q ==> IsSpace(t[k]))
    decreases |t| - p
  {
    if p < |t| && IsSpace(t[p]) then Skip(t, p + 1) else p
  }

  function WordEnd(t: string, p: nat): (e: nat)
    requires p <= |t|
    ensures p <= e <= |t| && (e < |t| ==> IsSpace(t[e]) || IsSym(t[e]))
    ensures forall k :: p <= k < e ==> !IsSpace(t[k]) && !IsSym(t[k])
    decreases |t| - p
  {
    if p < |t| && !IsSpace(t[p]) && !IsSym(t[p]) then WordEnd(t, p + 1) else p
  }

  /** The token that starts at q, and where it ends. */
  function TokenAt(t: string, q: nat): (r: (Tok<Slice>, nat))
    requires q < |t| && !IsSpace(t[q])
    ensures q < r.1 <= |t|
  {
    if t[q] == '>' && q + 1 < |t| && t[q + 1] == '>' then (Sym('+'), q + 2)
    else if IsSym(t[q]) then (Sym(t[q]), q + 1)
    else (Word(Slice(q, WordEnd(t, q))), WordEnd(t, q))
  }

  function Lex(t: string, p: nat): seq<Tok<Slice>>
    requires p <= |t|
    decreases |t| - p
  {
    var q := Skip(t, p);
    if q == |t| then []
    else
      var (tok, e) := TokenAt(t, q);
      [tok] + Lex(t, e)
  }

  lemma SkipOnce(t: string, p: nat, q: nat)
    requires p <= q <= |t| && (forall k :: p <= k < q ==> IsSpace(t[k])) && (q < |t| ==> !IsSpace(t[q]))
    ensures Skip(t, p) == q && Skip(t, q) == q && Lex(t, q) == Lex(t, p)
    decreases q - p
  {
    if p < q { SkipOnce(t, p + 1, q); }
  }

  /** What peek sees is the first character of the next token. */
  lemma FirstToken(t: string, p: nat)
    requires p <= |t|
    ensures Skip(t, p) == |t| <==> Lex(t, p) == []
    ensures var q := Skip(t, p);
            q < |t| ==> (Lex(t, p)[0].Sym? <==> IsSym(t[q]))
                        && (Lex(t, p)[0].Sym? ==> Lex(t, p)[0].c == t[q] || (Lex(t, p)[0].c == '+' && t[q] == '>'))
  {
  }

  /** A word of the text, as long as it can be. */
  ghost predicate WordOk(t: string, w: Slice) {
    && w.q < w.eq <= |t| && (forall k :: w.q <= k < w.eq ==> !IsSpace(t[k]) && !IsSym(t[k]))
    && (w.eq < |t| ==> IsSpace(t[w.eq]) || IsSym(t[w.eq]))
  }

  lemma {:induction false} LexWords(t: string, p: nat)
    requires p <= |t|
    ensures AllToks(Lex(t, p), (w: Slice) => WordOk(t, w))
    decreases |t| - p
  {
    var q := Skip(t, p);
    if q < |t| {
      var (tok, e) := TokenAt(t, q);
      LexWords(t, e);
      var rest := Lex(t, e);
      var ts := [tok] + rest;
      assert WordToken(t, q) by { TokenWord(t, q); }
      forall i | 0 <= i < |ts| && ts[i].Word? ensures WordOk(t, ts[i].w) {
        if i > 0 { assert ts[i] == rest[i - 1]; }
      }
    }
  }

  ghost predicate WordToken(t: string, q: nat)
    requires q < |t| && !IsSpace(t[q])
  {
    TokenAt(t, q).0.Word? ==> WordOk(t, TokenAt(t, q).0.w)
  }

  lemma TokenWord(t: string, q: nat)
    requires q < |t| && !IsSpace(t[q])
    ensures WordToken(t, q)
  {
  }

  // ---- the text of a command ----

  function Str(t: string, w: Slice): string {
    if w.q <= w.eq <= |t| then t[w.q..w.eq] else ""
  }

  function Named(t: string, tok: Tok<Slice>): Tok<string> {
    match tok case Sym(c) => Sym(c) case Word(w) => Word(Str(t, w))
  }

  function NamedAll(t: string, ts: seq<Tok<Slice>>): seq<Tok<string>> {
    seq(|ts|, i requires 0 <= i < |ts| => Named(t, ts[i]))
  }

  function NamedCmd(t: string, c: Cmd<Slice>): Cmd<string> {
    match c
    case Exec(argv) => Exec(seq(|argv|, i requires 0 <= i < |argv| => Str(t, argv[i])))
    case Redir(d, file, mode) => Redir(NamedCmd(t, d), Str(t, file), mode)
    case Pipe(l, r) => Pipe(NamedCmd(t, l), NamedCmd(t, r))
    case List(l, r) => List(NamedCmd(t, l), NamedCmd(t, r))
    case Back(d) => Back(NamedCmd(t, d))
  }

  // ---- printing to text ----

  function SymText(c: char): string { if c == '+' then ">>" else [c] }

  function TokText(tok: Tok<string>): string {
    match tok case Sym(c) => SymText(c) case Word(w) => w
  }

  /** Tokens, each followed by a space. */
  function Flat(ts: seq<Tok<string>>): string {
    if ts == [] then "" else TokText(ts[0]) + " " + Flat(ts[1..])
  }

  function Print(c: Cmd<string>): string { Flat(Tokens(c)) }

  ghost predicate WordStr(w: string) {
    |w| > 0 && forall k :: 0 <= k < |w| ==> !IsSpace(w[k]) && !IsSym(w[k]) && w[k] != NUL
  }

  ghost predicate TokOk(tok: Tok<string>) {
    match tok case Sym(c) => c in "<|>&;()+" case Word(w) => WordStr(w)
  }

  ghost predicate ToksOk(ts: seq<Tok<string>>) {
    forall i :: 0 <= i < |ts| ==> TokOk(ts[i])
  }

  /** A printed token is lexed as itself. */
  lemma LexToken(t: string, p: nat, tok: Tok<string>)
    requires TokOk(tok) && p + |TokText(tok)| < |t| && t[p..p + |TokText(tok)|] == TokText(tok)
    requires t[p + |TokText(tok)|] == ' '
    ensures Skip(t, p) == p < |t| && Named(t, TokenAt(t, p).0) == tok && TokenAt(t, p).1 == p + |TokText(tok)|
  {
    var x := TokText(tok);
    var e := p + |x|;
    assert forall k :: 0 <= k < |x| ==> t[p + k] == x[k];
    match tok
    case Sym(c) =>
    case Word(w) =>
      assert forall k :: p <= k < e ==> t[k] == w[k - p];
      WordEndIs(t, p, e);
  }

  lemma FlatSlices(t: string, p: nat, x: string, rest: string)
    requires p <= |t| && t[p..] == x + " " + rest
    ensures p + |x| < |t| && t[p..p + |x|] == x && t[p + |x|] == ' ' && t[p + |x| + 1..] == rest
  {
    var e := p + |x|;
    assert t[p..][..|x|] == x && t[p..][|x|] == ' ' && t[p..][|x| + 1..] == rest;
  }

  lemma {:induction false} LexFlat(t: string, p: nat, ts: seq<Tok<string>>)
    requires p <= |t| && t[p..] == Flat(ts) && ToksOk(ts)
    ensures NamedAll(t, Lex(t, p)) == ts
    decreases |ts|
  {
    hide TokText, TokOk, TokenAt, Skip, Named, NamedAll, IsSpace, Lex;
    if ts != [] {
      FlatSlices(t, p, TokText(ts[0]), Flat(ts[1..]));
      LexFlat(t, p + |TokText(ts[0])| + 1, ts[1..]);
      LexOne(t, p, ts);
    } else {
      FirstToken(t, p);
      assert NamedAll(t, []) == [] by { NoneNamed(t); }
    }
  }

  lemma NoneNamed(t: string)
    ensures NamedAll(t, []) == []
  {
  }

  lemma LexOne(t: string, p: nat, ts: seq<Tok<string>>)
    requires ts != [] && TokOk(ts[0]) && p + |TokText(ts[0])| < |t|
    requires t[p..p + |TokText(ts[0])|] == TokText(ts[0]) && t[p + |TokText(ts[0])|] == ' '
    requires NamedAll(t, Lex(t, p + |TokText(ts[0])| + 1)) == ts[1..]
    ensures NamedAll(t, Lex(t, p)) == ts
  {
    hide TokText, TokOk, TokenAt, Skip, Named, NamedAll, IsSpace, Lex;
    var e := p + |TokText(ts[0])|;
    LexToken(t, p, ts[0]);
    SkipSpace(t, e);
    LexFirst(t, p);
    NamedFirst(t, TokenAt(t, p).0, Lex(t, e), ts);
  }

  lemma LexFirst(t: string, p: nat)
    requires p < |t| && Skip(t, p) == p
    ensures Lex(t, p) == [TokenAt(t, p).0] + Lex(t, TokenAt(t, p).1)
  {
  }

  lemma NamedFirst(t: string, tok: Tok<Slice>, rest: seq<Tok<Slice>>, ts: seq<Tok<string>>)
    requires ts != [] && Named(t, tok) == ts[0] && NamedAll(t, rest) == ts[1..]
    ensures NamedAll(t, [tok] + rest) == ts
  {
    var all := NamedAll(t, [tok] + rest);
    assert |ts| == |rest| + 1;
    forall i | 0 <= i < |ts| ensures all[i] == ts[i] {
      if i > 0 { assert ([tok] + rest)[i] == rest[i - 1] && ts[i] == ts[1..][i - 1] == NamedAll(t, rest)[i - 1]; }
    }
  }

  lemma SkipSpace(t: string, e: nat)
    requires e < |t| && t[e] == ' '
    ensures Lex(t, e) == Lex(t, e + 1)
  {
  }

  // ---- round trip through the text ----

  lemma {:induction false} TokensOk(c: Cmd<string>)
    requires Uses(c, (w: string) => WordStr(w))
    ensures ToksOk(Tokens(c))
  {
    match c
    case Exec(argv) =>
    case Redir(d, file, mode) => TokensOk(d);
    case Pipe(l, r) => TokensOk(l); TokensOk(r);
    case List(l, r) => TokensOk(l); TokensOk(r);
    case Back(d) => TokensOk(d);
  }

  // ---- the parser does not look inside words ----

  function NamedRs(t: string, rs: seq<(Slice, Mode)>): seq<(string, Mode)> {
    seq(|rs|, i requires 0 <= i < |rs| => (Str(t, rs[i].0), rs[i].1))
  }

  function NamedArgv(t: string, argv: seq<Slice>): seq<string> {
    seq(|argv|, i requires 0 <= i < |argv| => Str(t, argv[i]))
  }

  function NamedRes(t: string, r: Res<Slice>): Res<string> {
    match r case Ok(c, rest) => Ok(NamedCmd(t, c), NamedAll(t, rest)) case Err => Err
  }

  function NamedMany(t: string, m: Many<Slice>): Many<string> {
    match m case Many(rs, rest) => Many(NamedRs(t, rs), NamedAll(t, rest)) case Bad => Bad
  }

  lemma NamedAt(t: string, ts: seq<Tok<Slice>>, syms: string)
    ensures At(NamedAll(t, ts), syms) <==> At(ts, syms)
    ensures |NamedAll(t, ts)| == |ts| && forall n: nat :: n <= |ts| ==> NamedAll(t, ts)[n..] == NamedAll(t, ts[n..])
    ensures forall i: nat :: i < |ts| ==> NamedAll(t, ts)[i] == Named(t, ts[i])
  {
  }

  lemma {:induction false} CollectNamed(t: string, rs: seq<(Slice, Mode)>, ts: seq<Tok<Slice>>)
    ensures Collect(NamedRs(t, rs), NamedAll(t, ts)) == NamedMany(t, Collect(rs, ts))
    decreases |ts|
  {
    hide NamedAll;
    NamedAt(t, ts, "<>+");
    if At(ts, "<>+") && |ts| >= 2 && ts[1].Word? {
      var rs' := rs + [(ts[1].w, ModeOf(ts[0].c))];
      CollectNamed(t, rs', ts[2..]);
      assert NamedRs(t, rs') == NamedRs(t, rs) + [(Str(t, ts[1].w), ModeOf(ts[0].c))];
    }
  }

  lemma {:induction false} WrapNamed(t: string, c: Cmd<Slice>, rs: seq<(Slice, Mode)>)
    ensures Wrap(NamedCmd(t, c), NamedRs(t, rs)) == NamedCmd(t, Wrap(c, rs))
    decreases |rs|
  {
    if rs != [] {
      WrapNamed(t, c, rs[..|rs| - 1]);
      assert NamedRs(t, rs)[..|rs| - 1] == NamedRs(t, rs[..|rs| - 1]);
    }
  }

  lemma {:induction false} ArgsNamed(t: string, argv: seq<Slice>, rs: seq<(Slice, Mode)>, ts: seq<Tok<Slice>>)
    ensures Args(NamedArgv(t, argv), NamedRs(t, rs), NamedAll(t, ts)) == NamedRes(t, Args(argv, rs, ts))
    decreases |ts|
  {
    hide NamedAll, NamedRs, Collect, Wrap;
    NamedAt(t, ts, "|)&;");
    if ts == [] || At(ts, "|)&;") {
      WrapNamed(t, Exec(argv), rs);
    } else if ts[0].Word? && |argv| + 1 < MAXARGS {
      CollectNamed(t, rs, ts[1..]);
      var m := Collect(rs, ts[1..]);
      assert NamedArgv(t, argv) + [Str(t, ts[0].w)] == NamedArgv(t, argv + [ts[0].w]);
      if m.Many? { ArgsNamed(t, argv + [ts[0].w], m.rs, m.rest); }
    }
  }

  lemma NamedNone(t: string)
    ensures NamedRs(t, []) == [] && NamedArgv(t, []) == []
  {
  }

  lemma {:induction false} ExecNamed(t: string, ts: seq<Tok<Slice>>)
    ensures ParseExec(NamedAll(t, ts)) == NamedRes(t, ParseExec(ts))
    decreases |ts|, 1
  {
    hide NamedAll, NamedRs, NamedArgv, Collect, Args, Wrap, ParseLine;
    NamedAt(t, ts, "(");
    NamedNone(t);
    if At(ts, "(") {
      LineNamed(t, ts[1..]);
      BlockNamed(t, ts);
    } else {
      CollectNamed(t, [], ts);
      var m := Collect([], ts);
      if m.Many? { ArgsNamed(t, [], m.rs, m.rest); }
    }
  }

  lemma BlockNamed(t: string, ts: seq<Tok<Slice>>)
    requires At(ts, "(") && At(NamedAll(t, ts), "(")
    requires ParseLine(NamedAll(t, ts)[1..]) == NamedRes(t, ParseLine(ts[1..]))
    ensures ParseBlock(NamedAll(t, ts)) == NamedRes(t, ParseBlock(ts))
  {
    hide NamedAll, NamedRs, Collect, Wrap, ParseLine;
    NamedNone(t);
    var r := ParseLine(ts[1..]);
    if r.Ok? {
      NamedAt(t, r.rest, ")");
      if At(r.rest, ")") {
        CollectNamed(t, [], r.rest[1..]);
        var m := Collect([], r.rest[1..]);
        if m.Many? { WrapNamed(t, r.cmd, m.rs); }
      }
    }
  }

  lemma {:induction false} PipeNamed(t: string, ts: seq<Tok<Slice>>)
    ensures ParsePipe(NamedAll(t, ts)) == NamedRes(t, ParsePipe(ts))
    decreases |ts|, 2
  {
    hide NamedAll, ParseExec;
    ExecNamed(t, ts);
    var r := ParseExec(ts);
    if r.Ok? {
      NamedAt(t, r.rest, "|");
      if At(r.rest, "|") { PipeNamed(t, r.rest[1..]); }
    }
  }

  lemma {:induction false} LineNamed(t: string, ts: seq<Tok<Slice>>)
    ensures ParseLine(NamedAll(t, ts)) == NamedRes(t, ParseLine(ts))
    decreases |ts|, 4
  {
    hide NamedAll, ParsePipe, AfterPipe;
    PipeNamed(t, ts);
    var r := ParsePipe(ts);
    if r.Ok? { AfterNamed(t, r.cmd, r.rest); }
  }

  lemma {:induction false} AfterNamed(t: string, c: Cmd<Slice>, ts: seq<Tok<Slice>>)
    ensures AfterPipe(NamedCmd(t, c), NamedAll(t, ts)) == NamedRes(t, AfterPipe(c, ts))
    decreases |ts|, 3
  {
    hide NamedAll, ParseLine;
    NamedAt(t, ts, "&");
    NamedAt(t, ts, ";");
    if At(ts, "&") {
      AfterNamed(t, Back(c), ts[1..]);
    } else if At(ts, ";") {
      LineNamed(t, ts[1..]);
    }
  }

  lemma AllNamed(t: string, ts: seq<Tok<Slice>>)
    ensures ParseAll(NamedAll(t, ts)) == NamedRes(t, ParseAll(ts))
  {
    hide ParseLine;
    LineNamed(t, ts);
  }

  /** A text that spells a line of the grammar is parsed to the command the line means, over the text's words. */
  lemma TextMeans(t: string, l: Line<string>)
    requires LineFits(l) && NamedAll(t, Lex(t, 0)) == LineText(l)
    ensures ParseAll(Lex(t, 0)).Ok? && NamedCmd(t, ParseAll(Lex(t, 0)).cmd) == LineMeans(l)
  {
    hide Lex, ParseAll;
    LineParses(l);
    AllNamed(t, Lex(t, 0));
  }

  /** And a text that is parsed spells such a line. */
  lemma TextSpells(t: string) returns (l: Line<string>)
    requires ParseAll(Lex(t, 0)).Ok?
    ensures LineFits(l) && NamedAll(t, Lex(t, 0)) == LineText(l)
  {
    hide Lex, ParseAll;
    AllNamed(t, Lex(t, 0));
    l := ParsesOnlyLines(NamedAll(t, Lex(t, 0)));
  }

  /** Every line can be written. */
  lemma LineWritten(l: Line<string>)
    requires ToksOk(LineText(l))
    ensures NamedAll(Flat(LineText(l)), Lex(Flat(LineText(l)), 0)) == LineText(l)
  {
    hide Lex, Flat;
    var t := Flat(LineText(l));
    assert t[0..] == t;
    LexFlat(t, 0, LineText(l));
  }

  /** The text printed for a command, parsed again, gives commands whose words spell the same command. */
  lemma TextRoundTrip(c: Cmd<string>)
    requires Printable(c) && Uses(c, (w: string) => WordStr(w))
    ensures var t := Print(c);
            ParseAll(Lex(t, 0)).Ok? && NamedCmd(t, ParseAll(Lex(t, 0)).cmd) == c
  {
    hide Lex, ParseAll;
    var t := Print(c);
    TokensOk(c);
    assert t[0..] == t;
    LexFlat(t, 0, Tokens(c));
    RoundTrip(c);
    AllNamed(t, Lex(t, 0));
  }

  // ---- NUL termination ----

  /** Where nulterminate writes. */
  ghost function EndsOf(c: Cmd<Slice>): set<nat> {
    match c
    case Exec(argv) => set i | 0 <= i < |argv| :: argv[i].eq
    case Redir(d, file, _) => EndsOf(d) + {file.eq}
    case Pipe(l, r) => EndsOf(l) + EndsOf(r)
    case List(l, r) => EndsOf(l) + EndsOf(r)
    case Back(d) => EndsOf(d)
  }

  /** b is the text t, NUL-terminated, with NULs also at ends. */
  ghost predicate Cut(b: seq<char>, t: string, ends: set<nat>) {
    |b| == |t| + 1 && forall k :: 0 <= k <= |t| ==> b[k] == if k == |t| || k in ends then NUL else t[k]
  }

  /** Read as a C string from w.q, b gives the word w of t. */
  ghost predicate ReadsAs(b: seq<char>, t: string, w: Slice) {
    && w.q <= w.eq <= |t| && w.eq < |b| && b[w.q..w.eq] == t[w.q..w.eq] && b[w.eq] == NUL
    && forall k :: w.q <= k < w.eq ==> b[k] != NUL
  }

  /** Every word of c, read as a C string from b, is what t has there. */
  ghost predicate AllReadAs(b: seq<char>, t: string, c: Cmd<Slice>) {
    Uses(c, (w: Slice) => ReadsAs(b, t, w))
  }

  /** The ends of words are at separators or at the end of the text. */
  ghost predicate EndsOk(t: string, ends: set<nat>) {
    forall e: nat :: e in ends ==> e <= |t| && (e < |t| ==> IsSpace(t[e]) || IsSym(t[e]))
  }

  lemma {:induction false} EndsAreOk(t: string, c: Cmd<Slice>)
    requires Uses(c, (w: Slice) => WordOk(t, w))
    ensures EndsOk(t, EndsOf(c))
  {
    match c
    case Exec(argv) =>
    case Redir(d, _, _) => EndsAreOk(t, d);
    case Pipe(l, r) => EndsAreOk(t, l); EndsAreOk(t, r);
    case List(l, r) => EndsAreOk(t, l); EndsAreOk(t, r);
    case Back(d) => EndsAreOk(t, d);
  }

  lemma WordReads(b: seq<char>, t: string, ends: set<nat>, w: Slice)
    requires Cut(b, t, ends) && EndsOk(t, ends) && WordOk(t, w) && w.eq in ends && NUL !in t
    ensures ReadsAs(b, t, w)
  {
    hide IsSpace, IsSym;
    forall k | w.q <= k < w.eq ensures b[k] == t[k] && b[k] != NUL {
      assert k !in ends;
      assert t[k] in t;
    }
  }

  /** After nulterminate every argument and file name, read as a C string, is its word. */
  lemma {:induction false} AllRead(b: seq<char>, t: string, ends: set<nat>, c: Cmd<Slice>)
    requires Cut(b, t, ends) && EndsOk(t, ends) && Uses(c, (w: Slice) => WordOk(t, w)) && EndsOf(c) <= ends && NUL !in t
    ensures AllReadAs(b, t, c)
  {
    match c
    case Exec(argv) =>
      forall i | 0 <= i < |argv| ensures ReadsAs(b, t, argv[i]) {
        assert argv[i].eq in EndsOf(c);
        WordReads(b, t, ends, argv[i]);
      }
    case Redir(d, file, _) => AllRead(b, t, ends, d); WordReads(b, t, ends, file);
    case Pipe(l, r) => AllRead(b, t, ends, l); AllRead(b, t, ends, r);
    case List(l, r) => AllRead(b, t, ends, l); AllRead(b, t, ends, r);
    case Back(d) => AllRead(b, t, ends, d);
  }

  // ---- the parser ----

  class Parser {
    const buf: array<char>
    var pos: nat
    ghost const text: string

    ghost predicate Valid()
      reads this, buf
    {
      NUL !in text && Cut(buf[..], text, {}) && pos <= |text|
    }

    /** The tokens not yet read. */
    ghost function Toks(): seq<Tok<Slice>>
      requires pos <= |text|
      reads this
    {
      Lex(text, pos)
    }

    constructor (t: string)
      requires NUL !in t
      ensures Valid() && text == t && pos == 0 && fresh(buf)
    {
      buf := new char[|t| + 1](i => if 0 <= i < |t| then t[i] else NUL);
      pos := 0;
      text := t;
    }

    /** Move past white space. */
    method SkipSpaces()
      requires Valid()
      modifies `pos
      ensures Valid() && pos == Skip(text, old(pos)) && Toks() == old(Toks())
    {
      var s := pos;
      while s < buf.Length - 1 && IsSpace(buf[s])
        invariant pos == old(pos) <= s <= |text| && forall k :: pos <= k < s ==> IsSpace(text[k])
      {
        s := s + 1;
      }
      SkipOnce(text, pos, s);
      pos := s;
    }

    /** Is the next character one of toks? */
    method Peek(toks: string) returns (b: bool)
      requires Valid() && NUL !in toks
      modifies `pos
      ensures Valid() && Toks() == old(Toks()) && pos == Skip(text, old(pos))
      ensures b <==> pos < |text| && text[pos] in toks
      ensures pos == |text| <==> Toks() == []
      ensures pos < |text| ==> (Toks()[0].Sym? <==> IsSym(text[pos]))
      ensures pos < |text| && Toks()[0].Sym? ==> Toks()[0].c == text[pos] || (Toks()[0].c == '+' && text[pos] == '>')
    {
      FirstToken(text, pos);
      SkipSpaces();
      b := buf[pos] != NUL && buf[pos] in toks;
      if pos < |text| { assert text[pos] in text; }
    }

    /** The next token: NUL at the end, 'a' for a word, '+' for >>, else the symbol; and where it lies. */
    method Gettoken() returns (ret: char, q: nat, eq: nat)
      requires Valid()
      modifies `pos
      ensures Valid() && (ret == NUL <==> old(Toks()) == [])
      ensures ret == NUL ==> Toks() == []
      ensures ret != NUL ==> Toks() == old(Toks())[1..]
      ensures ret != NUL ==> old(Toks())[0] == if ret == 'a' then Word(Slice(q, eq)) else Sym(ret)
    {
      hide Cut;
      SkipSpaces();
      CutIs(buf[..], text);
      q := pos;
      ret := buf[q];
      var s := q;
      if ret == NUL {
        AtEnd(text, q);
      } else {
        NotNul(text, q);
        ret, s := Scan(q);
      }
      eq := s;
      ghost var ts := Lex(text, q);
      pos := s;
      SkipSpaces();
      if ret != NUL { LexFirst(text, q); assert ts[1..] == Lex(text, s); }
    }
  
    /** gettoken's switch: the kind of the token at q, and where it ends. */
    method Scan(q: nat) returns (ret: char, s: nat)
      requires Valid() && q < |text| && !IsSpace(text[q])
      ensures q < s <= |text| && ret != NUL
      ensures TokenAt(text, q) == (if ret == 'a' then Word(Slice(q, s)) else Sym(ret), s)
    {
      hide Cut;
      CutIs(buf[..], text);
      assert text[q] in text;
      ret, s := buf[q], q;
      if ret == '>' {
        s := s + 1;
        if buf[s] == '>' {
          ret := '+';
          s := s + 1;
        }
      } else if ret in "|();&<" {
        s := s + 1;
      } else {
        ret := 'a';
        while s < buf.Length - 1 && !IsSpace(buf[s]) && !IsSym(buf[s])
          invariant q <= s <= |text| && forall k :: q <= k < s ==> !IsSpace(text[k]) && !IsSym(text[k])
        {
          s := s + 1;
        }
        WordEndIs(text, q, s);
      }
    }

    /** Peek for symbols, in terms of tokens; > in syms also stands for >>. */
    method PeekSyms(syms: string) returns (b: bool)
      requires Valid() && forall k :: 0 <= k < |syms| ==> IsSym(syms[k])
      modifies `pos
      ensures Valid() && Toks() == old(Toks())
      ensures b <==> At(Toks(), if '>' in syms then syms + "+" else syms)
    {
      b := Peek(syms);
    }

    method ParseRedirs(rs0: seq<(Slice, Mode)>) returns (ok: bool, rs: seq<(Slice, Mode)>)
      requires Valid()
      modifies `pos
      ensures Valid()
      ensures if ok then Collect(rs0, old(Toks())) == Many(rs, Toks()) else Collect(rs0, old(Toks())).Bad?
    {
      rs := rs0;
      var more := PeekSyms("<>");
      while more
        invariant Valid() && Collect(rs, Toks()) == Collect(rs0, old(Toks())) && (more <==> At(Toks(), "<>+"))
        decreases |Toks()|
      {
        ghost var ts := Toks();
        var tok, _, _ := Gettoken();
        var ret, q, eq := Gettoken();
        if ret != 'a' { return false, rs; }
        rs := rs + [(Slice(q, eq), if tok == '<' then Input else if tok == '>' then Truncate else Overwrite)];
        assert ts[1..][1..] == ts[2..];
        more := PeekSyms("<>");
      }
      return true, rs;
    }

    method ParseExec() returns (r: Option<Cmd<Slice>>)
      requires Valid()
      modifies `pos
      ensures Valid() && Agrees(r, Toks(), ShellSyntax.ParseExec(old(Toks())))
      decreases |Toks()|, 1
    {
      var block := PeekSyms("(");
      if block {
        r := ParseBlock();
        return;
      }
      ghost var ts := Toks();
      var ok, rs := ParseRedirs([]);
      if !ok { return None; }
      var argv: seq<Slice> := [];
      var done := PeekSyms("|)&;");
      while !done
        invariant Valid() && Args(argv, rs, Toks()) == ShellSyntax.ParseExec(ts) && |argv| < MAXARGS
        invariant done <==> At(Toks(), "|)&;")
        decreases |Toks()|
      {
        ghost var us := Toks();
        var tok, q, eq := Gettoken();
        if tok == NUL { break; }
        if tok != 'a' { return None; }
        argv := argv + [Slice(q, eq)];
        if |argv| >= MAXARGS { return None; }
        ok, rs := ParseRedirs(rs);
        if !ok { return None; }
        done := PeekSyms("|)&;");
      }
      return Some(Wrap(Exec(argv), rs));
    }

    method ParseBlock() returns (r: Option<Cmd<Slice>>)
      requires Valid() && At(Toks(), "(")
      modifies `pos
      ensures Valid() && Agrees(r, Toks(), ShellSyntax.ParseBlock(old(Toks())))
      decreases |Toks()|, 0
    {
      var _, _, _ := Gettoken();
      r := ParseLine();
      if r.None? { return; }
      var close := PeekSyms(")");
      if !close { return None; }
      var _, _, _ := Gettoken();
      var ok, rs := ParseRedirs([]);
      if !ok { return None; }
      return Some(Wrap(r.value, rs));
    }

    method ParsePipe() returns (r: Option<Cmd<Slice>>)
      requires Valid()
      modifies `pos
      ensures Valid() && Agrees(r, Toks(), ShellSyntax.ParsePipe(old(Toks())))
      decreases |Toks()|, 2
    {
      r := ParseExec();
      if r.None? { return; }
      var bar := PeekSyms("|");
      if bar {
        var _, _, _ := Gettoken();
        var right := ParsePipe();
        if right.None? { return None; }
        return Some(Pipe(r.value, right.value));
      }
    }

    method ParseLine() returns (r: Option<Cmd<Slice>>)
      requires Valid()
      modifies `pos
      ensures Valid() && Agrees(r, Toks(), ShellSyntax.ParseLine(old(Toks())))
      decreases |Toks()|, 4
    {
      ghost var ts := Toks();
      r := ParsePipe();
      if r.None? { return; }
      var cmd := r.value;
      var amp := PeekSyms("&");
      while amp
        invariant Valid() && AfterPipe(cmd, Toks()) == ShellSyntax.ParseLine(ts) && (amp <==> At(Toks(), "&"))
        invariant |Toks()| <= |ts|
        decreases |Toks()|
      {
        var _, _, _ := Gettoken();
        cmd := Back(cmd);
        amp := PeekSyms("&");
      }
      var semi := PeekSyms(";");
      if semi {
        var _, _, _ := Gettoken();
        var right := ParseLine();
        if right.None? { return None; }
        return Some(List(cmd, right.value));
      }
      return Some(cmd);
    }

    /** Write NUL at the end of every word of c. */
    method Nulterminate(c: Cmd<Slice>, ghost ends: set<nat>)
      requires Cut(buf[..], text, ends) && Uses(c, (w: Slice) => w.eq <= |text|)
      modifies buf
      ensures Cut(buf[..], text, ends + EndsOf(c))
      decreases c
    {
      match c
      case Exec(argv) =>
        var i := 0;
        while i < |argv|
          invariant 0 <= i <= |argv| && Cut(buf[..], text, ends + (set k | 0 <= k < i :: argv[k].eq))
        {
          ghost var before := ends + (set k | 0 <= k < i :: argv[k].eq);
          NulAt(buf[..], text, before, argv[i].eq);
          buf[argv[i].eq] := NUL;
          i := i + 1;
          assert before + {argv[i - 1].eq} == ends + (set k | 0 <= k < i :: argv[k].eq);
        }
      case Redir(d, file, _) =>
        Nulterminate(d, ends);
        NulAt(buf[..], text, ends + EndsOf(d), file.eq);
        buf[file.eq] := NUL;
        assert ends + EndsOf(d) + {file.eq} == ends + EndsOf(c);
      case Pipe(l, r) =>
        Nulterminate(l, ends);
        Nulterminate(r, ends + EndsOf(l));
        assert ends + EndsOf(l) + EndsOf(r) == ends + EndsOf(c);
      case List(l, r) =>
        Nulterminate(l, ends);
        Nulterminate(r, ends + EndsOf(l));
        assert ends + EndsOf(l) + EndsOf(r) == ends + EndsOf(c);
      case Back(d) => Nulterminate(d, ends);
    }

    /** parsecmd: the command the tokens of the text spell, its words NUL-terminated; None is a panic. */
    method ParseCmd() returns (r: Option<Cmd<Slice>>)
      requires Valid() && pos == 0
      modifies this, buf
      ensures r.None? <==> ParseAll(Lex(text, 0)).Err?
      ensures r.Some? ==> ParseAll(Lex(text, 0)) == Ok(r.value, []) && AllReadAs(buf[..], text, r.value)
      ensures forall l: Line<string> :: LineFits(l) && NamedAll(text, Lex(text, 0)) == LineText(l) ==>
                r.Some? && NamedCmd(text, r.value) == LineMeans(l)
    {
      hide Cut, Uses, AllReadAs;
      forall l: Line<string> | LineFits(l) && NamedAll(text, Lex(text, 0)) == LineText(l)
        ensures ParseAll(Lex(text, 0)).Ok? && NamedCmd(text, ParseAll(Lex(text, 0)).cmd) == LineMeans(l)
      {
        TextMeans(text, l);
      }
      LexWords(text, 0);
      LineGood(Lex(text, 0), (w: Slice) => WordOk(text, w));
      r := ParseLine();
      if r.None? { return; }
      var _ := Peek("");
      CutIs(buf[..], text);
      if pos != buf.Length - 1 { return None; }
      UsesShort(text, r.value);
      EndsAreOk(text, r.value);
      Nulterminate(r.value, {});
      assert {} + EndsOf(r.value) == EndsOf(r.value);
      AllRead(buf[..], text, EndsOf(r.value), r.value);
    }
  }

  /** A parsing method's result and the tokens it leaves, against the parser on tokens. */
  ghost predicate Agrees(r: Option<Cmd<Slice>>, rest: seq<Tok<Slice>>, spec: Res<Slice>) {
    match spec
    case Err => r.None?
    case Ok(c, rest') => r == Some(c) && rest == rest'
  }

  lemma NulAt(b: seq<char>, t: string, ends: set<nat>, e: nat)
    requires Cut(b, t, ends) && e <= |t|
    ensures Cut(b[e := NUL], t, ends + {e})
  {
  }

  lemma {:induction false} UsesShort(t: string, c: Cmd<Slice>)
    requires Uses(c, (w: Slice) => WordOk(t, w))
    ensures Uses(c, (w: Slice) => w.eq <= |t|)
  {
    match c
    case Exec(argv) =>
    case Redir(d, _, _) => UsesShort(t, d);
    case Pipe(l, r) => UsesShort(t, l); UsesShort(t, r);
    case List(l, r) => UsesShort(t, l); UsesShort(t, r);
    case Back(d) => UsesShort(t, d);
  }

  lemma CutIs(b: seq<char>, t: string)
    requires Cut(b, t, {})
    ensures |b| == |t| + 1 && b[|t|] == NUL && forall k :: 0 <= k < |t| ==> b[k] == t[k]
  {
  }

  lemma AtEnd(t: string, q: nat)
    requires q <= |t| && NUL !in t && (q < |t| ==> t[q] == NUL)
    ensures q == |t| && Lex(t, q) == []
  {
    forall k | 0 <= k < |t| ensures t[k] != NUL { assert t[k] in t; }
  }

  lemma NotNul(t: string, q: nat)
    requires q <= |t| && Skip(t, q) == q && q < |t|
    ensures Lex(t, q) != []
  {
  }

  lemma WordEndIs(t: string, p: nat, e: nat)
    requires p <= e <= |t| && (forall k :: p <= k < e ==> !IsSpace(t[k]) && !IsSym(t[k]))
    requires (e < |t| ==> IsSpace(t[e]) || IsSym(t[e]))
    ensures WordEnd(t, p) == e
  {
  }
}
