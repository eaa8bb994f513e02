/**
 The command language of user/sh.c as a grammar: what a line may look like, and which command it stands
 for. The parser accepts exactly the lines of this grammar with at most nine arguments per command, and
 gives each its meaning.
 */
module ShellGrammar {
  import opened ShellSyntax

  datatype Redirection<W> = To(file: W, mode: Mode)

  /** A simple command is words and redirections in any order. */
  datatype Item<W> = Arg(w: W) | Re(r: Redirection<W>)

  datatype Part<W> = Plain(items: seq<Item<W>>) | Group(line: Line<W>, rs: seq<Redirection<W>>)

  datatype Pipeline<W> = One(p: Part<W>) | Then(p: Part<W>, more: Pipeline<W>)

  /** A pipeline, some number of &, and perhaps ; and another line. */
  datatype Line<W> = Last(pl: Pipeline<W>, amps: nat) | Seq(pl: Pipeline<W>, amps: nat, next: Line<W>)

  // ---- the text ----

  function RedirText<W>(r: Redirection<W>): seq<Tok<W>> { [Sym(SymOf(r.mode)), Word(r.file)] }

  function RedirsText<W>(rs: seq<Redirection<W>>): seq<Tok<W>> {
    if rs == [] then [] else RedirText(rs[0]) + RedirsText(rs[1..])
  }

  function ItemsText<W>(items: seq<Item<W>>): seq<Tok<W>> {
    if items == [] then []
    else (match items[0] case Arg(w) => [Word(w)] case Re(r) => RedirText(r)) + ItemsText(items[1..])
  }

  function Amps<W>(n: nat): seq<Tok<W>> { if n == 0 then [] else [Sym('&')] + Amps(n - 1) }

  function PartText<W>(p: Part<W>): seq<Tok<W>> {
    match p
    case Plain(items) => ItemsText(items)
    case Group(line, rs) => [Sym('(')] + LineText(line) + [Sym(')')] + RedirsText(rs)
  }

  function PipelineText<W>(pl: Pipeline<W>): seq<Tok<W>> {
    match pl
    case One(p) => PartText(p)
    case Then(p, more) => PartText(p) + [Sym('|')] + PipelineText(more)
  }

  function LineText<W>(l: Line<W>): seq<Tok<W>> {
    match l
    case Last(pl, amps) => PipelineText(pl) + Amps(amps)
    case Seq(pl, amps, next) => PipelineText(pl) + Amps(amps) + [Sym(';')] + LineText(next)
  }

  // ---- the meaning ----

  function ArgsOf<W>(items: seq<Item<W>>): seq<W> {
    if items == [] then [] else (if items[0].Arg? then [items[0].w] else []) + ArgsOf(items[1..])
  }

  function RedirsOf<W>(items: seq<Item<W>>): seq<Redirection<W>> {
    if items == [] then [] else (if items[0].Re? then [items[0].r] else []) + RedirsOf(items[1..])
  }

  /** c inside the redirections, the first innermost and the last outermost. */
  function Within<W>(c: Cmd<W>, rs: seq<Redirection<W>>): Cmd<W>
    decreases |rs|
  {
    if rs == [] then c else Within(Redir(c, rs[0].file, rs[0].mode), rs[1..])
  }

  function Backs<W>(c: Cmd<W>, n: nat): Cmd<W>
    decreases n
  {
    if n == 0 then c else Backs(Back(c), n - 1)
  }

  function PartMeans<W>(p: Part<W>): Cmd<W> {
    match p
    case Plain(items) => Within(Exec(ArgsOf(items)), RedirsOf(items))
    case Group(line, rs) => Within(LineMeans(line), rs)
  }

  function PipelineMeans<W>(pl: Pipeline<W>): Cmd<W> {
    match pl
    case One(p) => PartMeans(p)
    case Then(p, more) => Pipe(PartMeans(p), PipelineMeans(more))
  }

  function LineMeans<W>(l: Line<W>): Cmd<W> {
    match l
    case Last(pl, amps) => Backs(PipelineMeans(pl), amps)
    case Seq(pl, amps, next) => List(Backs(PipelineMeans(pl), amps), LineMeans(next))
  }

  // ---- no more than nine arguments ----

  predicate PartFits<W>(p: Part<W>) {
    match p case Plain(items) => |ArgsOf(items)| < MAXARGS case Group(line, _) => LineFits(line)
  }

  predicate PipelineFits<W>(pl: Pipeline<W>) {
    match pl case One(p) => PartFits(p) case Then(p, more) => PartFits(p) && PipelineFits(more)
  }

  predicate LineFits<W>(l: Line<W>) {
    match l
    case Last(pl, _) => PipelineFits(pl)
    case Seq(pl, _, next) => PipelineFits(pl) && LineFits(next)
  }

  // ---- every line of the grammar is parsed, to what it means ----

  function Pairs<W>(rs: seq<Redirection<W>>): seq<(W, Mode)> {
    seq(|rs|, i requires 0 <= i < |rs| => (rs[i].file, rs[i].mode))
  }

  lemma {:induction false} WrapLast<W>(c: Cmd<W>, ps: seq<(W, Mode)>, qs: seq<(W, Mode)>)
    ensures Wrap(c, ps + qs) == Wrap(Wrap(c, ps), qs)
    decreases |qs|
  {
    if qs == [] {
      assert ps + qs == ps;
    } else {
      WrapLast(c, ps, qs[..|qs| - 1]);
      assert (ps + qs)[..|ps + qs| - 1] == ps + qs[..|qs| - 1];
    }
  }

  /** The parser's way to wrap redirections comes to the same. */
  lemma {:induction false} WrapIsWithin<W>(c: Cmd<W>, rs: seq<Redirection<W>>)
    ensures Wrap(c, Pairs(rs)) == Within(c, rs)
    decreases |rs|
  {
    if rs != [] {
      var first := [(rs[0].file, rs[0].mode)];
      assert Pairs(rs) == first + Pairs(rs[1..]);
      WrapLast(c, first, Pairs(rs[1..]));
      assert first[..0] == [];
      assert Wrap(c, first) == Redir(Wrap(c, []), rs[0].file, rs[0].mode);
      WrapIsWithin(Redir(c, rs[0].file, rs[0].mode), rs[1..]);
    }
  }

  lemma SymsBack(m: Mode)
    ensures ModeOf(SymOf(m)) == m && SymOf(m) in "<>+"
  {
  }

  lemma CollectOne<W>(ps: seq<(W, Mode)>, r: Redirection<W>, tail: seq<Tok<W>>)
    ensures Collect(ps, RedirText(r) + tail) == Collect(ps + [(r.file, r.mode)], tail)
  {
    SymsBack(r.mode);
    var ts := RedirText(r) + tail;
    assert ts[2..] == tail && At(ts, "<>+");
  }

  lemma {:induction false} CollectBack<W>(ps: seq<(W, Mode)>, rs: seq<Redirection<W>>, rest: seq<Tok<W>>)
    requires !At(rest, "<>+")
    ensures Collect(ps, RedirsText(rs) + rest) == Many(ps + Pairs(rs), rest)
    decreases |rs|
  {
    hide Collect, RedirText;
    if rs == [] {
      assert RedirsText(rs) + rest == rest && ps + Pairs(rs) == ps;
      PlainCollect(ps, rest);
    } else {
      var tail := RedirsText(rs[1..]) + rest;
      var ps' := ps + [(rs[0].file, rs[0].mode)];
      assert RedirsText(rs) + rest == RedirText(rs[0]) + tail;
      CollectOne(ps, rs[0], tail);
      CollectBack(ps', rs[1..], rest);
      assert ps' + Pairs(rs[1..]) == ps + Pairs(rs);
    }
  }

  /** What may follow a part. */
  predicate Ends<W>(ts: seq<Tok<W>>) { ts == [] || At(ts, "|)&;") }

  /** parseexec from where it calls parseredirs, with some arguments and redirections read. */
  function Run<W>(argv: seq<W>, ps: seq<(W, Mode)>, ts: seq<Tok<W>>): Res<W> {
    match Collect(ps, ts) case Bad => Err case Many(rs, rest) => Args(argv, rs, rest)
  }

  function Done<W>(argv: seq<W>, ps: seq<(W, Mode)>, items: seq<Item<W>>): Cmd<W> {
    Wrap(Exec(argv + ArgsOf(items)), ps + Pairs(RedirsOf(items)))
  }

  lemma DoneNone<W>(argv: seq<W>, ps: seq<(W, Mode)>)
    ensures Done(argv, ps, []) == Wrap(Exec(argv), ps)
  {
    var items: seq<Item<W>> := [];
    assert argv + ArgsOf(items) == argv && ps + Pairs(RedirsOf(items)) == ps;
  }

  lemma DoneArg<W>(argv: seq<W>, ps: seq<(W, Mode)>, w: W, items: seq<Item<W>>)
    ensures Done(argv, ps, [Arg(w)] + items) == Done(argv + [w], ps, items)
    ensures ItemsText([Arg(w)] + items) == [Word(w)] + ItemsText(items)
    ensures |ArgsOf([Arg(w)] + items)| == 1 + |ArgsOf(items)|
  {
    var all := [Arg(w)] + items;
    assert all[1..] == items;
    assert argv + ArgsOf(all) == argv + [w] + ArgsOf(items) && RedirsOf(all) == [] + RedirsOf(items) == RedirsOf(items);
  }

  lemma DoneRedir<W>(argv: seq<W>, ps: seq<(W, Mode)>, r: Redirection<W>, items: seq<Item<W>>)
    ensures Done(argv, ps, [Re(r)] + items) == Done(argv, ps + [(r.file, r.mode)], items)
    ensures ItemsText([Re(r)] + items) == RedirText(r) + ItemsText(items)
    ensures ArgsOf([Re(r)] + items) == ArgsOf(items)
  {
    var all := [Re(r)] + items;
    assert all[1..] == items;
    assert RedirsOf(all) == [r] + RedirsOf(items) && ArgsOf(all) == [] + ArgsOf(items) == ArgsOf(items);
    assert ps + Pairs(RedirsOf(all)) == ps + [(r.file, r.mode)] + Pairs(RedirsOf(items));
  }

  lemma RunRedir<W>(argv: seq<W>, ps: seq<(W, Mode)>, r: Redirection<W>, tail: seq<Tok<W>>)
    ensures Run(argv, ps, RedirText(r) + tail) == Run(argv, ps + [(r.file, r.mode)], tail)
  {
    hide Collect;
    CollectOne(ps, r, tail);
  }

  lemma RunArg<W>(argv: seq<W>, ps: seq<(W, Mode)>, w: W, tail: seq<Tok<W>>)
    ensures Run(argv, ps, [Word(w)] + tail) == if |argv| + 1 >= MAXARGS then Err else Run(argv + [w], ps, tail)
  {
    var ts := [Word(w)] + tail;
    assert ts[1..] == tail;
    assert Collect(ps, ts) == Many(ps, ts);
  }

  lemma {:induction false} ItemsSound<W>(argv: seq<W>, ps: seq<(W, Mode)>, items: seq<Item<W>>, rest: seq<Tok<W>>)
    requires Ends(rest) && |argv| + |ArgsOf(items)| < MAXARGS
    ensures Run(argv, ps, ItemsText(items) + rest) == Ok(Done(argv, ps, items), rest)
    decreases |items|
  {
    hide Run, Done;
    var ts := ItemsText(items) + rest;
    if items == [] {
      assert ts == rest;
      RunEnd(argv, ps, rest);
      DoneNone(argv, ps);
    } else {
      var tail := ItemsText(items[1..]) + rest;
      match items[0]
      case Arg(w) =>
        assert items == [Arg(w)] + items[1..];
        DoneArg(argv, ps, w, items[1..]);
        assert ts == [Word(w)] + tail;
        RunArg(argv, ps, w, tail);
        ItemsSound(argv + [w], ps, items[1..], rest);
      case Re(r) =>
        assert items == [Re(r)] + items[1..];
        DoneRedir(argv, ps, r, items[1..]);
        assert ts == RedirText(r) + tail;
        RunRedir(argv, ps, r, tail);
        ItemsSound(argv, ps + [(r.file, r.mode)], items[1..], rest);
    }
  }

  lemma RunEnd<W>(argv: seq<W>, ps: seq<(W, Mode)>, rest: seq<Tok<W>>)
    requires Ends(rest)
    ensures Run(argv, ps, rest) == Ok(Wrap(Exec(argv), ps), rest)
  {
    assert Collect(ps, rest) == Many(ps, rest);
  }

  lemma DoneMeans<W>(items: seq<Item<W>>)
    ensures Done([], [], items) == PartMeans(Plain(items))
  {
    assert [] + ArgsOf(items) == ArgsOf(items);
    var none: seq<(W, Mode)> := [];
    assert none + Pairs(RedirsOf(items)) == Pairs(RedirsOf(items));
    WrapIsWithin(Exec(ArgsOf(items)), RedirsOf(items));
  }

  lemma ItemsStart<W>(items: seq<Item<W>>, rest: seq<Tok<W>>)
    requires Ends(rest)
    ensures !At(ItemsText(items) + rest, "(")
  {
    if items == [] {
      assert ItemsText(items) + rest == rest;
    } else if items[0].Re? {
      SymsBack(items[0].r.mode);
      assert SymOf(items[0].r.mode) !in "(";
    }
  }

  lemma {:induction false} PartSound<W>(p: Part<W>, rest: seq<Tok<W>>)
    requires PartFits(p) && Ends(rest)
    ensures ParseExec(PartText(p) + rest) == Ok(PartMeans(p), rest)
    decreases p
  {
    match p
    case Plain(items) =>
      ItemsSound([], [], items, rest);
      DoneMeans(items);
      ItemsStart(items, rest);
    case Group(line, rs) =>
      LineSound(line, [Sym(')')] + RedirsText(rs) + rest);
      GroupSound(line, rs, rest);
  }

  lemma GroupSound<W>(line: Line<W>, rs: seq<Redirection<W>>, rest: seq<Tok<W>>)
    requires Ends(rest)
    requires ParseLine(LineText(line) + ([Sym(')')] + RedirsText(rs) + rest)) ==
             Ok(LineMeans(line), [Sym(')')] + RedirsText(rs) + rest)
    ensures ParseExec(PartText(Group(line, rs)) + rest) == Ok(PartMeans(Group(line, rs)), rest)
  {
    hide ParseLine, LineText, ParseExec, RedirsText, Collect, Wrap, LineMeans;
    var ts := PartText(Group(line, rs)) + rest;
    var after := [Sym(')')] + RedirsText(rs) + rest;
    assert ts == [Sym('(')] + (LineText(line) + after);
    assert after == [Sym(')')] + (RedirsText(rs) + rest);
    CollectBack([], rs, rest);
    var none: seq<(W, Mode)> := [];
    assert none + Pairs(rs) == Pairs(rs);
    WrapIsWithin(LineMeans(line), rs);
    BlockMade(LineText(line) + after, LineMeans(line), RedirsText(rs) + rest, Pairs(rs), rest);
  }

  lemma BlockMade<W>(inner: seq<Tok<W>>, c: Cmd<W>, tail: seq<Tok<W>>, ps: seq<(W, Mode)>, rest: seq<Tok<W>>)
    requires ParseLine(inner) == Ok(c, [Sym(')')] + tail) && Collect([], tail) == Many(ps, rest)
    ensures ParseExec([Sym('(')] + inner) == Ok(Wrap(c, ps), rest)
  {
    hide ParseLine, Collect, Wrap;
    var ts := [Sym('(')] + inner;
    assert ts[1..] == inner && ([Sym(')')] + tail)[1..] == tail;
  }

  lemma {:induction false} PipelineSound<W>(pl: Pipeline<W>, rest: seq<Tok<W>>)
    requires PipelineFits(pl) && (rest == [] || At(rest, ")&;"))
    ensures ParsePipe(PipelineText(pl) + rest) == Ok(PipelineMeans(pl), rest)
    decreases pl
  {
    hide ParseExec, ParsePipe, PartText, PartMeans;
    match pl
    case One(p) =>
      PartSound(p, rest);
      PipeEnds(PartText(p) + rest, PartMeans(p), rest);
    case Then(p, more) =>
      var tail := PipelineText(more) + rest;
      PartSound(p, [Sym('|')] + tail);
      PipelineSound(more, rest);
      assert PipelineText(pl) + rest == PartText(p) + ([Sym('|')] + tail);
      PipeMade(PipelineText(pl) + rest, PartMeans(p), tail, PipelineMeans(more), rest);
  }

  lemma PipeEnds<W>(ts: seq<Tok<W>>, c: Cmd<W>, rest: seq<Tok<W>>)
    requires ParseExec(ts) == Ok(c, rest) && !At(rest, "|")
    ensures ParsePipe(ts) == Ok(c, rest)
  {
    hide ParseExec;
  }

  lemma PipeMade<W>(ts: seq<Tok<W>>, c: Cmd<W>, tail: seq<Tok<W>>, d: Cmd<W>, rest: seq<Tok<W>>)
    requires ParseExec(ts) == Ok(c, [Sym('|')] + tail) && ParsePipe(tail) == Ok(d, rest)
    ensures ParsePipe(ts) == Ok(Pipe(c, d), rest)
  {
    hide ParseExec;
    assert ([Sym('|')] + tail)[1..] == tail;
  }

  lemma {:induction false} AmpsSound<W>(c: Cmd<W>, n: nat, rest: seq<Tok<W>>)
    requires !At(rest, "&")
    ensures AfterPipe(c, Amps(n) + rest) == AfterPipe(Backs(c, n), rest)
    decreases n
  {
    var ts := Amps(n) + rest;
    if n == 0 {
      assert ts == rest;
    } else {
      assert ts[1..] == Amps(n - 1) + rest;
      AmpsSound(Back(c), n - 1, rest);
    }
  }

  lemma AmpsStart<W>(n: nat, rest: seq<Tok<W>>)
    requires rest == [] || At(rest, ");")
    ensures Amps(n) + rest == [] || At(Amps(n) + rest, ")&;")
  {
    if n == 0 { assert Amps(n) + rest == rest; }
  }

  lemma {:induction false} LineSound<W>(l: Line<W>, rest: seq<Tok<W>>)
    requires LineFits(l) && Closed(rest)
    ensures ParseLine(LineText(l) + rest) == Ok(LineMeans(l), rest)
    decreases l
  {
    match l
    case Last(pl, amps) =>
      assert LineText(l) + rest == PipelineText(pl) + (Amps(amps) + rest);
      AmpsStart(amps, rest);
      PipelineSound(pl, Amps(amps) + rest);
      AmpsSound(PipelineMeans(pl), amps, rest);
    case Seq(pl, amps, next) =>
      var tail := LineText(next) + rest;
      var semi := [Sym(';')] + tail;
      assert LineText(l) + rest == PipelineText(pl) + (Amps(amps) + semi);
      AmpsStart(amps, semi);
      PipelineSound(pl, Amps(amps) + semi);
      AmpsSound(PipelineMeans(pl), amps, semi);
      assert semi[1..] == tail;
      LineSound(next, rest);
  }

  // ---- and nothing else is ----

  lemma Regroup<W>(ts: seq<Tok<W>>, a: seq<Tok<W>>, b: seq<Tok<W>>, c: seq<Tok<W>>)
    requires ts == a + (b + c)
    ensures ts == (a + b) + c
  {
  }

  lemma {:induction false} ItemsComplete<W>(argv: seq<W>, ps: seq<(W, Mode)>, ts: seq<Tok<W>>)
      returns (items: seq<Item<W>>)
    requires Run(argv, ps, ts).Ok? && |argv| < MAXARGS
    ensures var r := Run(argv, ps, ts);
            && Ends(r.rest) && ts == ItemsText(items) + r.rest && r.cmd == Done(argv, ps, items)
            && |argv| + |ArgsOf(items)| < MAXARGS
    decreases |ts|
  {
    hide Done, Run, ItemsText, ArgsOf, RedirText, Ends;
    var rest := Run(argv, ps, ts).rest;
    if Ends(ts) {
      items := [];
      RunEnd(argv, ps, ts);
      DoneNone(argv, ps);
      NoItems(ts);
    } else if TokensLeft(ts) {
      var w := ts[0].w;
      assert ts == [Word(w)] + ts[1..];
      RunArg(argv, ps, w, ts[1..]);
      var more := ItemsComplete(argv + [w], ps, ts[1..]);
      items := [Arg(w)] + more;
      DoneArg(argv, ps, w, more);
      Regroup(ts, [Word(w)], ItemsText(more), rest);
    } else {
      RunSym(argv, ps, ts);
      var r := RedirAt(ts);
      RunRedir(argv, ps, r, ts[2..]);
      var more := ItemsComplete(argv, ps + [(r.file, r.mode)], ts[2..]);
      items := [Re(r)] + more;
      DoneRedir(argv, ps, r, more);
      Regroup(ts, RedirText(r), ItemsText(more), rest);
    }
  }

  lemma NoItems<W>(ts: seq<Tok<W>>)
    ensures ts == ItemsText([]) + ts && ArgsOf<W>([]) == []
  {
    var none: seq<Item<W>> := [];
    assert ItemsText(none) == [];
  }

  predicate TokensLeft<W>(ts: seq<Tok<W>>) { ts != [] && ts[0].Word? }

  lemma RedirAt<W>(ts: seq<Tok<W>>) returns (r: Redirection<W>)
    requires At(ts, "<>+") && |ts| >= 2 && ts[1].Word?
    ensures ts == RedirText(r) + ts[2..]
  {
    r := To(ts[1].w, ModeOf(ts[0].c));
    ModesBack(ts[0].c);
  }

  lemma ModesBack(c: char)
    requires c in "<>+"
    ensures SymOf(ModeOf(c)) == c
  {
  }

  lemma RunSym<W>(argv: seq<W>, ps: seq<(W, Mode)>, ts: seq<Tok<W>>)
    requires !TokensLeft(ts) && !Ends(ts)
    ensures Run(argv, ps, ts).Ok? ==> At(ts, "<>+") && |ts| >= 2 && ts[1].Word?
  {
    if !At(ts, "<>+") { PlainCollect(ps, ts); }
  }

  lemma PlainCollect<W>(ps: seq<(W, Mode)>, ts: seq<Tok<W>>)
    requires !At(ts, "<>+")
    ensures Collect(ps, ts) == Many(ps, ts)
  {
  }

  lemma {:induction false} RedirsComplete<W>(ps: seq<(W, Mode)>, ts: seq<Tok<W>>) returns (rs: seq<Redirection<W>>)
    requires Collect(ps, ts).Many?
    ensures var m := Collect(ps, ts); ts == RedirsText(rs) + m.rest && m.rs == ps + Pairs(rs)
    decreases |ts|
  {
    if At(ts, "<>+") {
      var r := To(ts[1].w, ModeOf(ts[0].c));
      ModesBack(ts[0].c);
      var more := RedirsComplete(ps + [(r.file, r.mode)], ts[2..]);
      rs := [r] + more;
      assert rs[1..] == more;
      assert ts == RedirText(r) + ts[2..];
      assert ps + Pairs(rs) == ps + [(r.file, r.mode)] + Pairs(more);
    } else {
      rs := [];
      assert ps + Pairs(rs) == ps && RedirsText(rs) + ts == ts;
    }
  }

  lemma {:induction false} PartComplete<W>(ts: seq<Tok<W>>) returns (p: Part<W>)
    requires ParseExec(ts).Ok?
    ensures var r := ParseExec(ts); PartFits(p) && ts == PartText(p) + r.rest && r.cmd == PartMeans(p)
    decreases |ts|, 1
  {
    if At(ts, "(") {
      var line := LineComplete(ts[1..]);
      p := GroupComplete(ts, line);
    } else {
      var items := ItemsComplete([], [], ts);
      p := Plain(items);
      DoneMeans(items);
    }
  }

  lemma GroupComplete<W>(ts: seq<Tok<W>>, line: Line<W>) returns (p: Part<W>)
    requires At(ts, "(") && ParseBlock(ts).Ok? && ParseLine(ts[1..]).Ok? && LineFits(line)
    requires ts[1..] == LineText(line) + ParseLine(ts[1..]).rest && ParseLine(ts[1..]).cmd == LineMeans(line)
    ensures var r := ParseBlock(ts); PartFits(p) && ts == PartText(p) + r.rest && r.cmd == PartMeans(p)
  {
    hide LineText, LineFits, LineMeans, ParseLine, ParseBlock, Collect, Wrap, RedirsText, Within, Pairs;
    BlockParts(ts);
    var after := ParseLine(ts[1..]).rest;
    var m := Collect([], after[1..]);
    var rs := RedirsComplete([], after[1..]);
    p := Group(line, rs);
    NoPairs(rs);
    WrapIsWithin(LineMeans(line), rs);
    GroupText(ts, LineText(line), after, RedirsText(rs), m.rest);
  }

  lemma NoPairs<W>(rs: seq<Redirection<W>>)
    ensures [] + Pairs(rs) == Pairs(rs)
  {
  }

  lemma GroupText<W>(ts: seq<Tok<W>>, line: seq<Tok<W>>, after: seq<Tok<W>>, redirs: seq<Tok<W>>, rest: seq<Tok<W>>)
    requires At(ts, "(") && ts[1..] == line + after && At(after, ")") && after[1..] == redirs + rest
    ensures ts == [Sym('(')] + line + [Sym(')')] + redirs + rest
  {
    assert ts == [Sym('(')] + ts[1..] && after == [Sym(')')] + after[1..];
  }

  lemma BlockParts<W>(ts: seq<Tok<W>>)
    requires At(ts, "(") && ParseBlock(ts).Ok?
    ensures ParseLine(ts[1..]).Ok?
    ensures var r := ParseLine(ts[1..]);
            && At(r.rest, ")") && Collect([], r.rest[1..]).Many?
            && var m := Collect([], r.rest[1..]); ParseBlock(ts) == Ok(Wrap(r.cmd, m.rs), m.rest)
  {
    hide ParseLine, Collect, Wrap;
  }

  lemma {:induction false} PipelineComplete<W>(ts: seq<Tok<W>>) returns (pl: Pipeline<W>)
    requires ParsePipe(ts).Ok?
    ensures var r := ParsePipe(ts); PipelineFits(pl) && ts == PipelineText(pl) + r.rest && r.cmd == PipelineMeans(pl)
    decreases |ts|, 2
  {
    hide ParsePipe, ParseExec, PartText, PartMeans, PartFits;
    PipeParts(ts);
    var p := PartComplete(ts);
    var rest := ParseExec(ts).rest;
    if At(rest, "|") {
      var more := PipelineComplete(rest[1..]);
      pl := Then(p, more);
      PipeText(ts, PartText(p), rest, PipelineText(more), ParsePipe(rest[1..]).rest);
    } else {
      pl := One(p);
    }
  }

  lemma PipeText<W>(ts: seq<Tok<W>>, p: seq<Tok<W>>, after: seq<Tok<W>>, more: seq<Tok<W>>, rest: seq<Tok<W>>)
    requires ts == p + after && At(after, "|") && after[1..] == more + rest
    ensures ts == p + [Sym('|')] + more + rest
  {
    assert after == [Sym('|')] + after[1..];
  }

  lemma PipeParts<W>(ts: seq<Tok<W>>)
    requires ParsePipe(ts).Ok?
    ensures ParseExec(ts).Ok? && |ParseExec(ts).rest| <= |ts|
    ensures var r := ParseExec(ts);
            && (At(r.rest, "|") ==> ParsePipe(r.rest[1..]).Ok?)
            && ParsePipe(ts) ==
               if At(r.rest, "|") then Ok(Pipe(r.cmd, ParsePipe(r.rest[1..]).cmd), ParsePipe(r.rest[1..]).rest) else r
  {
    hide ParseExec;
  }

  /** The number of & at the front of ts. */
  function AmpCount<W>(ts: seq<Tok<W>>): nat { if At(ts, "&") then 1 + AmpCount(ts[1..]) else 0 }

  lemma {:induction false} AmpsComplete<W>(ts: seq<Tok<W>>)
    ensures var n := AmpCount(ts); n <= |ts| && ts == Amps(n) + ts[n..] && !At(ts[n..], "&")
    decreases |ts|
  {
    if At(ts, "&") {
      AmpsComplete(ts[1..]);
      var n := AmpCount(ts[1..]);
      assert ts[n + 1..] == ts[1..][n..];
      assert ts == [Sym('&')] + ts[1..];
    } else {
      assert ts[0..] == ts;
      assert ts == [] + ts;
    }
  }

  lemma {:induction false} LineComplete<W>(ts: seq<Tok<W>>) returns (l: Line<W>)
    requires ParseLine(ts).Ok?
    ensures var r := ParseLine(ts); LineFits(l) && ts == LineText(l) + r.rest && r.cmd == LineMeans(l)
    decreases |ts|, 4
  {
    hide PipelineText, PipelineFits, PipelineMeans, ParsePipe, ParseLine, AfterPipe, Backs, Amps, AmpCount;
    LineParts(ts);
    var pl := PipelineComplete(ts);
    var c, rest := ParsePipe(ts).cmd, ParsePipe(ts).rest;
    AmpsComplete(rest);
    var n := AmpCount(rest);
    var after := rest[n..];
    AmpsSound(c, n, after);
    AfterParts(Backs(c, n), after);
    if At(after, ";") {
      var next := LineComplete(after[1..]);
      l := Seq(pl, n, next);
      SeqText(ts, PipelineText(pl), Amps(n), after, LineText(next), ParseLine(after[1..]).rest);
    } else {
      l := Last(pl, n);
      Regroup(ts, PipelineText(pl), Amps(n), after);
    }
  }

  lemma SeqText<W>(ts: seq<Tok<W>>, p: seq<Tok<W>>, amps: seq<Tok<W>>, after: seq<Tok<W>>, next: seq<Tok<W>>,
      rest: seq<Tok<W>>)
    requires ts == p + (amps + after) && At(after, ";") && after[1..] == next + rest
    ensures ts == p + amps + [Sym(';')] + next + rest
  {
    assert after == [Sym(';')] + after[1..];
  }

  lemma LineParts<W>(ts: seq<Tok<W>>)
    requires ParseLine(ts).Ok?
    ensures ParsePipe(ts).Ok? && |ParsePipe(ts).rest| <= |ts|
    ensures ParseLine(ts) == AfterPipe(ParsePipe(ts).cmd, ParsePipe(ts).rest)
  {
    hide ParsePipe, AfterPipe;
  }

  lemma AfterParts<W>(c: Cmd<W>, ts: seq<Tok<W>>)
    requires !At(ts, "&")
    ensures !At(ts, ";") ==> AfterPipe(c, ts) == Ok(c, ts)
    ensures At(ts, ";") && AfterPipe(c, ts).Ok? ==>
              ParseLine(ts[1..]).Ok? && AfterPipe(c, ts) == Ok(List(c, ParseLine(ts[1..]).cmd), ParseLine(ts[1..]).rest)
  {
    hide ParseLine;
  }

  /** The parser reads a line of the grammar with at most nine arguments per command as what it means. */
  lemma LineParses<W>(l: Line<W>)
    requires LineFits(l)
    ensures ParseAll(LineText(l)) == Ok(LineMeans(l), [])
  {
    LineSound(l, []);
    assert LineText(l) + [] == LineText(l);
  }

  /** And it accepts no other tokens. */
  lemma ParsesOnlyLines<W>(ts: seq<Tok<W>>) returns (l: Line<W>)
    requires ParseAll(ts).Ok?
    ensures LineFits(l) && LineText(l) == ts && ParseAll(ts) == Ok(LineMeans(l), [])
  {
    l := LineComplete(ts);
    assert LineText(l) + [] == LineText(l);
  }
}
