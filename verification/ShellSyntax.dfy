/**
 The command language of user/sh.c: the parser as a function of the tokens, a printer that
 parenthesises subcommands, and the proof that the parser undoes it.
 */
module ShellSyntax {

  const MAXARGS := 10

  datatype Tok<W> = Sym(c: char) | Word(w: W)
  datatype Mode = Input | Truncate | Overwrite      // <, >, >>; none of them appends

  datatype Cmd<W> =
    | Exec(argv: seq<W>)
    | Redir(cmd: Cmd<W>, file: W, mode: Mode)
    | Pipe(left: Cmd<W>, right: Cmd<W>)
    | List(left: Cmd<W>, right: Cmd<W>)
    | Back(cmd: Cmd<W>)

  /** A command and the tokens left over, or a panic. */
  datatype Res<W> = Ok(cmd: Cmd<W>, rest: seq<Tok<W>>) | Err

  /** peek: the next token is one of these symbols. */
  predicate At<W>(ts: seq<Tok<W>>, syms: string) {
    ts != [] && ts[0].Sym? && ts[0].c in syms
  }

  function ModeOf(c: char): Mode {
    if c == '<' then Input else if c == '>' then Truncate else Overwrite
  }

  function SymOf(m: Mode): char {
    match m case Input => '<' case Truncate => '>' case Overwrite => '+'
  }

  // ---- the parser; '+' stands for the token >> ----

  /** Redirections wrap the command they belong to, the first innermost. */
  function Wrap<W>(c: Cmd<W>, rs: seq<(W, Mode)>): Cmd<W>
    decreases |rs|
  {
    if rs == [] then c else Redir(Wrap(c, rs[..|rs| - 1]), rs[|rs| - 1].0, rs[|rs| - 1].1)
  }

  /** Redirections at the front of ts, collected. */
  datatype Many<W> = Many(rs: seq<(W, Mode)>, rest: seq<Tok<W>>) | Bad

  function Collect<W>(rs: seq<(W, Mode)>, ts: seq<Tok<W>>): (r: Many<W>)
    ensures r.Many? ==> |r.rest| <= |ts| && !At(r.rest, "<>+")
    decreases |ts|
  {
    if !At(ts, "<>+") then Many(rs, ts)
    else if |ts| < 2 || !ts[1].Word? then Bad
    else Collect(rs + [(ts[1].w, ModeOf(ts[0].c))], ts[2..])
  }

  function Args<W>(argv: seq<W>, rs: seq<(W, Mode)>, ts: seq<Tok<W>>): (r: Res<W>)
    ensures r.Ok? ==> |r.rest| <= |ts|
    decreases |ts|
  {
    if ts == [] || At(ts, "|)&;") then Ok(Wrap(Exec(argv), rs), ts)
    else if !ts[0].Word? || |argv| + 1 >= MAXARGS then Err
    else
      match Collect(rs, ts[1..])
      case Bad => Err
      case Many(rs', rest) => Args(argv + [ts[0].w], rs', rest)
  }

  function ParseExec<W>(ts: seq<Tok<W>>): (r: Res<W>)
    ensures r.Ok? ==> |r.rest| <= |ts|
    decreases |ts|, 1
  {
    if At(ts, "(") then ParseBlock(ts)
    else
      match Collect([], ts)
      case Bad => Err
      case Many(rs, rest) => Args([], rs, rest)
  }

  function ParseBlock<W>(ts: seq<Tok<W>>): (r: Res<W>)
    requires At(ts, "(")
    ensures r.Ok? ==> |r.rest| <= |ts|
    decreases |ts|, 0
  {
    match ParseLine(ts[1..])
    case Err => Err
    case Ok(c, rest) =>
      if !At(rest, ")") then Err
      else
        match Collect([], rest[1..])
        case Bad => Err
        case Many(rs, rest') => Ok(Wrap(c, rs), rest')
  }

  function ParsePipe<W>(ts: seq<Tok<W>>): (r: Res<W>)
    ensures r.Ok? ==> |r.rest| <= |ts|
    decreases |ts|, 2
  {
    match ParseExec(ts)
    case Err => Err
    case Ok(c, rest) =>
      if !At(rest, "|") then Ok(c, rest)
      else
        match ParsePipe(rest[1..])
        case Err => Err
        case Ok(d, rest') => Ok(Pipe(c, d), rest')
  }

  function ParseLine<W>(ts: seq<Tok<W>>): (r: Res<W>)
    ensures r.Ok? ==> |r.rest| <= |ts|
    decreases |ts|, 4
  {
    match ParsePipe(ts)
    case Err => Err
    case Ok(c, rest) => AfterPipe(c, rest)
  }

  /** The rest of parseline: any number of &, and perhaps ; and another line. */
  function AfterPipe<W>(c: Cmd<W>, ts: seq<Tok<W>>): (r: Res<W>)
    ensures r.Ok? ==> |r.rest| <= |ts|
    decreases |ts|, 3
  {
    if At(ts, "&") then AfterPipe(Back(c), ts[1..])
    else if At(ts, ";") then
      match ParseLine(ts[1..])
      case Err => Err
      case Ok(d, rest) => Ok(List(c, d), rest)
    else Ok(c, ts)
  }

  /** parsecmd: nothing may be left over. */
  function ParseAll<W>(ts: seq<Tok<W>>): Res<W> {
    match ParseLine(ts)
    case Err => Err
    case Ok(c, rest) => if rest == [] then Ok(c, []) else Err
  }

  // ---- the printer ----

  function WordsOf<W>(argv: seq<W>): seq<Tok<W>> {
    seq(|argv|, i requires 0 <= i < |argv| => Word(argv[i]))
  }

  function Parens<W>(c: Cmd<W>): seq<Tok<W>>
    decreases c, 1
  {
    [Sym('(')] + Tokens(c) + [Sym(')')]
  }

  function Tokens<W>(c: Cmd<W>): seq<Tok<W>>
    decreases c, 0
  {
    match c
    case Exec(argv) => WordsOf(argv)
    case Redir(d, file, mode) => Parens(d) + [Sym(SymOf(mode)), Word(file)]
    case Pipe(l, r) => Parens(l) + [Sym('|')] + Parens(r)
    case List(l, r) => Parens(l) + [Sym(';')] + Parens(r)
    case Back(d) => Parens(d) + [Sym('&')]
  }

  /** Every EXEC has fewer than MAXARGS arguments. */
  predicate Printable<W>(c: Cmd<W>) {
    match c
    case Exec(argv) => |argv| < MAXARGS
    case Redir(d, _, _) => Printable(d)
    case Pipe(l, r) => Printable(l) && Printable(r)
    case List(l, r) => Printable(l) && Printable(r)
    case Back(d) => Printable(d)
  }

  /** The tokens that may follow a command inside parentheses, or at the end. */
  predicate Closed<W>(ts: seq<Tok<W>>) {
    ts == [] || ts[0] == Sym(')')
  }

  // ---- the parser undoes the printer ----

  lemma {:induction false} ArgsBack<W>(argv: seq<W>, more: seq<W>, rest: seq<Tok<W>>)
    requires |argv| + |more| < MAXARGS && Closed(rest)
    ensures Args(argv, [], WordsOf(more) + rest) == Ok(Exec(argv + more), rest)
    decreases |more|
  {
    var ts := WordsOf(more) + rest;
    if more == [] {
      assert ts == rest && argv + more == argv;
    } else {
      assert ts[1..] == WordsOf(more[1..]) + rest;
      ArgsBack(argv + [more[0]], more[1..], rest);
      assert argv + [more[0]] + more[1..] == argv + more;
    }
  }

  /** A parenthesised command is read back where no redirection follows. */
  lemma {:induction false} ParensBack<W>(c: Cmd<W>, rest: seq<Tok<W>>)
    requires Printable(c) && !At(rest, "<>+")
    ensures ParseExec(Parens(c) + rest) == Ok(c, rest)
    decreases c, 1
  {
    var ts := Parens(c) + rest;
    var inner := [Sym(')')] + rest;
    assert ts[1..] == Tokens(c) + inner;
    LineBack(c, inner);
    assert inner[1..] == rest;
  }

  lemma {:induction false} LineBack<W>(c: Cmd<W>, rest: seq<Tok<W>>)
    requires Printable(c) && Closed(rest)
    ensures ParseLine(Tokens(c) + rest) == Ok(c, rest)
    decreases c, 0
  {
    var ts := Tokens(c) + rest;
    match c
    case Exec(argv) => ExecBack(argv, rest);
    case Redir(d, file, mode) =>
      RedirBack(d, file, mode, rest);
      assert Parens(d) + ([Sym(SymOf(mode)), Word(file)] + rest) == ts;
    case Pipe(l, r) =>
      var tail := Parens(r) + rest;
      assert Parens(l) + ([Sym('|')] + tail) == ts;
      ParensBack(l, [Sym('|')] + tail);
      ParensBack(r, rest);
      PipeParsed(ts, tail, l, r, rest);
    case List(l, r) =>
      var tail := Parens(r) + rest;
      assert Parens(l) + ([Sym(';')] + tail) == ts;
      ParensBack(l, [Sym(';')] + tail);
      ParensBack(r, rest);
      ListParsed(ts, tail, l, r, rest);
    case Back(d) =>
      assert Parens(d) + ([Sym('&')] + rest) == ts;
      ParensBack(d, [Sym('&')] + rest);
      BackParsed(ts, d, rest);
  }

  lemma ExecBack<W>(argv: seq<W>, rest: seq<Tok<W>>)
    requires Printable(Exec(argv)) && Closed(rest)
    ensures ParseLine(Tokens(Exec(argv)) + rest) == Ok(Exec(argv), rest)
  {
    var ts := Tokens(Exec(argv)) + rest;
    assert argv != [] ==> ts[0] == Word(argv[0]);
    ArgsBack([], argv, rest);
    assert [] + argv == argv;
    assert ParseExec(ts) == Ok(Exec(argv), rest);
  }

  lemma PipeParsed<W>(ts: seq<Tok<W>>, tail: seq<Tok<W>>, l: Cmd<W>, r: Cmd<W>, rest: seq<Tok<W>>)
    requires ParseExec(ts) == Ok(l, [Sym('|')] + tail) && ParseExec(tail) == Ok(r, rest) && Closed(rest)
    ensures ParseLine(ts) == Ok(Pipe(l, r), rest)
  {
    assert ([Sym('|')] + tail)[1..] == tail;
    assert ParsePipe(tail) == Ok(r, rest);
    assert ParsePipe(ts) == Ok(Pipe(l, r), rest);
  }

  lemma ListParsed<W>(ts: seq<Tok<W>>, tail: seq<Tok<W>>, l: Cmd<W>, r: Cmd<W>, rest: seq<Tok<W>>)
    requires ParseExec(ts) == Ok(l, [Sym(';')] + tail) && ParseExec(tail) == Ok(r, rest) && Closed(rest)
    ensures ParseLine(ts) == Ok(List(l, r), rest)
  {
    var more := [Sym(';')] + tail;
    assert more[1..] == tail;
    assert ParsePipe(tail) == Ok(r, rest);
    assert ParseLine(tail) == Ok(r, rest);
    assert ParsePipe(ts) == Ok(l, more);
  }

  lemma BackParsed<W>(ts: seq<Tok<W>>, d: Cmd<W>, rest: seq<Tok<W>>)
    requires ParseExec(ts) == Ok(d, [Sym('&')] + rest) && Closed(rest)
    ensures ParseLine(ts) == Ok(Back(d), rest)
  {
    var more := [Sym('&')] + rest;
    assert more[1..] == rest;
    assert ParsePipe(ts) == Ok(d, more);
    assert AfterPipe(Back(d), rest) == Ok(Back(d), rest);
  }

  lemma {:induction false} RedirBack<W>(d: Cmd<W>, file: W, mode: Mode, rest: seq<Tok<W>>)
    requires Printable(d) && Closed(rest)
    ensures ParseExec(Parens(d) + ([Sym(SymOf(mode)), Word(file)] + rest)) == Ok(Redir(d, file, mode), rest)
    decreases d, 1
  {
    var tail := [Sym(SymOf(mode)), Word(file)] + rest;
    var ts := Parens(d) + tail;
    var inner := [Sym(')')] + tail;
    assert ts[1..] == Tokens(d) + inner;
    LineBack(d, inner);
    assert inner[1..] == tail;
    OneRedir(d, file, mode, rest);
    assert At(ts, "(") && ParseLine(ts[1..]) == Ok(d, inner) && At(inner, ")");
    assert ParseBlock(ts) == Ok(Wrap(d, [(file, mode)]), rest);
  }

  lemma OneRedir<W>(d: Cmd<W>, file: W, mode: Mode, rest: seq<Tok<W>>)
    requires Closed(rest)
    ensures Collect([], [Sym(SymOf(mode)), Word(file)] + rest) == Many([(file, mode)], rest)
    ensures Wrap(d, [(file, mode)]) == Redir(d, file, mode)
  {
    var tail := [Sym(SymOf(mode)), Word(file)] + rest;
    var rs := [(file, mode)];
    assert tail[2..] == rest && ModeOf(SymOf(mode)) == mode && [] + rs == rs && rs[..0] == [];
    assert Collect(rs, rest) == Many(rs, rest);
    assert Wrap(d, rs[..0]) == d;
  }

  /** Round trip: what the printer writes for a command with at most nine arguments per EXEC is read back as it. */
  lemma RoundTrip<W>(c: Cmd<W>)
    requires Printable(c)
    ensures ParseAll(Tokens(c)) == Ok(c, [])
  {
    LineBack(c, []);
    assert Tokens(c) + [] == Tokens(c);
  }

  // ---- what the parser can return ----

  ghost predicate Uses<W(!new)>(c: Cmd<W>, p: W -> bool) {
    match c
    case Exec(argv) => forall i :: 0 <= i < |argv| ==> p(argv[i])
    case Redir(d, file, _) => Uses(d, p) && p(file)
    case Pipe(l, r) => Uses(l, p) && Uses(r, p)
    case List(l, r) => Uses(l, p) && Uses(r, p)
    case Back(d) => Uses(d, p)
  }

  ghost predicate AllToks<W(!new)>(ts: seq<Tok<W>>, p: W -> bool) {
    forall i :: 0 <= i < |ts| && ts[i].Word? ==> p(ts[i].w)
  }

  ghost predicate AllRedirs<W(!new)>(rs: seq<(W, Mode)>, p: W -> bool) {
    forall i :: 0 <= i < |rs| ==> p(rs[i].0)
  }

  /** The words of a command are words of the text, and each EXEC has at most nine arguments. */
  ghost predicate Good<W(!new)>(r: Res<W>, p: W -> bool) {
    r.Ok? ==> Uses(r.cmd, p) && Printable(r.cmd) && AllToks(r.rest, p)
  }

  lemma {:induction false} CollectGood<W(!new)>(rs: seq<(W, Mode)>, ts: seq<Tok<W>>, p: W -> bool)
    requires AllRedirs(rs, p) && AllToks(ts, p)
    ensures Collect(rs, ts).Many? ==> AllRedirs(Collect(rs, ts).rs, p) && AllToks(Collect(rs, ts).rest, p)
    decreases |ts|
  {
    if At(ts, "<>+") && |ts| >= 2 && ts[1].Word? {
      CollectGood(rs + [(ts[1].w, ModeOf(ts[0].c))], ts[2..], p);
    }
  }

  lemma {:induction false} WrapGood<W(!new)>(c: Cmd<W>, rs: seq<(W, Mode)>, p: W -> bool)
    requires Uses(c, p) && Printable(c) && AllRedirs(rs, p)
    ensures Uses(Wrap(c, rs), p) && Printable(Wrap(c, rs))
    decreases |rs|
  {
    if rs != [] { WrapGood(c, rs[..|rs| - 1], p); }
  }

  lemma {:induction false} ArgsGood<W(!new)>(argv: seq<W>, rs: seq<(W, Mode)>, ts: seq<Tok<W>>, p: W -> bool)
    requires AllRedirs(rs, p) && AllToks(ts, p) && |argv| < MAXARGS && forall i :: 0 <= i < |argv| ==> p(argv[i])
    ensures Good(Args(argv, rs, ts), p)
    decreases |ts|
  {
    if ts == [] || At(ts, "|)&;") {
      WrapGood(Exec(argv), rs, p);
    } else if ts[0].Word? && |argv| + 1 < MAXARGS {
      CollectGood(rs, ts[1..], p);
      var m := Collect(rs, ts[1..]);
      if m.Many? { ArgsGood(argv + [ts[0].w], m.rs, m.rest, p); }
    }
  }

  lemma {:induction false} ExecGood<W(!new)>(ts: seq<Tok<W>>, p: W -> bool)
    requires AllToks(ts, p)
    ensures Good(ParseExec(ts), p)
    decreases |ts|, 1
  {
    if At(ts, "(") {
      LineGood(ts[1..], p);
      var r := ParseLine(ts[1..]);
      if r.Ok? && At(r.rest, ")") {
        CollectGood([], r.rest[1..], p);
        var m := Collect([], r.rest[1..]);
        if m.Many? { WrapGood(r.cmd, m.rs, p); }
      }
    } else {
      CollectGood([], ts, p);
      var m := Collect([], ts);
      if m.Many? { ArgsGood([], m.rs, m.rest, p); }
    }
  }

  lemma {:induction false} PipeGood<W(!new)>(ts: seq<Tok<W>>, p: W -> bool)
    requires AllToks(ts, p)
    ensures Good(ParsePipe(ts), p)
    decreases |ts|, 2
  {
    ExecGood(ts, p);
    var r := ParseExec(ts);
    if r.Ok? && At(r.rest, "|") { PipeGood(r.rest[1..], p); }
  }

  lemma {:induction false} LineGood<W(!new)>(ts: seq<Tok<W>>, p: W -> bool)
    requires AllToks(ts, p)
    ensures Good(ParseLine(ts), p)
    decreases |ts|, 4
  {
    PipeGood(ts, p);
    var r := ParsePipe(ts);
    if r.Ok? { AfterGood(r.cmd, r.rest, p); }
  }

  lemma {:induction false} AfterGood<W(!new)>(c: Cmd<W>, ts: seq<Tok<W>>, p: W -> bool)
    requires Uses(c, p) && Printable(c) && AllToks(ts, p)
    ensures Good(AfterPipe(c, ts), p)
    decreases |ts|, 3
  {
    if At(ts, "&") {
      AfterGood(Back(c), ts[1..], p);
    } else if At(ts, ";") {
      LineGood(ts[1..], p);
    }
  }

  /** Printing what was parsed and parsing that again changes nothing. */
  lemma Reparse<W(!new)>(ts: seq<Tok<W>>)
    requires ParseAll(ts).Ok?
    ensures ParseAll(Tokens(ParseAll(ts).cmd)) == ParseAll(ts)
  {
    LineGood(ts, _ => true);
    RoundTrip(ParseAll(ts).cmd);
  }
}
