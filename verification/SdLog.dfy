/** The SD energy log: a live CSV and three older generations, shifted by FAT
    renames any of which may fail. */
module SdLog {

  const GENERATIONS := 3

  /** One CSV line; the schema row is marked. `Part` is what a broken append left, with
      no line end; `Torn` is such a beginning that the next line was written on to. */
  datatype Line = Header(text: string) | Row(text: string) | Part(text: string) | Torn(text: string)

  datatype File = Absent | Present(lines: seq<Line>)

  function Lines(f: File): seq<Line> { if f.Present? then f.lines else [] }

  function Bytes(ls: seq<Line>): nat
    decreases |ls|
  {
    if ls == [] then 0
    else Bytes(ls[..|ls| - 1]) + |ls[|ls| - 1].text| + if ls[|ls| - 1].Part? then 0 else 1
  }

  function Size(f: File): nat { Bytes(Lines(f)) }

  function Rows(ls: seq<Line>): seq<string>
    decreases |ls|
  {
    if ls == [] then []
    else if ls[|ls| - 1].Row? then Rows(ls[..|ls| - 1]) + [ls[|ls| - 1].text]
    else Rows(ls[..|ls| - 1])
  }

  /** The live file at index 0, then ENERGY.001 .. ENERGY.003. */
  type Card = s: seq<File> | |s| == GENERATIONS + 1 witness [Absent, Absent, Absent, Absent]

  /* ---- the file system ---- */

  /** FAT `remove`: `fault` is any failure of the call itself. */
  function Remove(c: Card, i: nat, fault: bool): Card
    requires i <= GENERATIONS
  {
    if fault then c else c[i := Absent]
  }

  /** FAT `rename`: never replaces an existing target. */
  predicate Renames(c: Card, src: nat, dst: nat, fault: bool)
    requires src <= GENERATIONS && dst <= GENERATIONS
  {
    !fault && c[src].Present? && !c[dst].Present?
  }

  function Rename(c: Card, src: nat, dst: nat, fault: bool): Card
    requires src <= GENERATIONS && dst <= GENERATIONS && src != dst
  {
    if Renames(c, src, dst, fault) then c[dst := c[src]][src := Absent] else c
  }

  /** What became of an append: whether the line reached the file and whether
      success was reported. A reported success means the line is there; `Cut` is a
      failure after its first bytes. */
  datatype Append = Wrote | Unreported | Nothing | Cut(kept: nat)
  {
    predicate Landed() { Wrote? || Unreported? }
  }

  /** The unfinished text at the end of a file. */
  function Loose(ls: seq<Line>): string { if ls != [] && ls[|ls| - 1].Part? then ls[|ls| - 1].text else "" }

  function Finished(ls: seq<Line>): seq<Line> { if ls != [] && ls[|ls| - 1].Part? then ls[..|ls| - 1] else ls }

  function Put(ls: seq<Line>, line: Line, a: Append): seq<Line> {
    match a
    case Nothing => ls
    case Cut(kept) => Finished(ls) + [Part(Loose(ls) + if kept < |line.text| then line.text[..kept] else line.text)]
    case _ => Finished(ls) + [if Loose(ls) == "" then line else Torn(Loose(ls) + line.text)]
  }

  function Appended(c: Card, line: Line, a: Append): Card {
    if a.Nothing? then c else c[0 := Present(Put(Lines(c[0]), line, a))]
  }

  /* ---- specification ---- */

  /** The faults a rotation meets: removing .003, then the three renames. */
  datatype Faults = Faults(remove: bool, two: bool, one: bool, live: bool)

  function Rotate(c: Card, f: Faults): Card {
    Rename(Rename(Rename(Remove(c, 3, f.remove), 2, 3, f.two), 1, 2, f.one), 0, 1, f.live)
  }

  predicate Due(c: Card, maxKb: nat) { maxKb > 0 && Size(c[0]) >= maxKb * 1024 }

  datatype Env = Env(faults: Faults, header: Append, row: Append)

  /** The row, behind a header if the file is empty. */
  function Filled(c: Card, header: string, row: string, e: Env): (Card, bool) {
    if Size(c[0]) == 0 then
      var c2 := Appended(c, Header(header), e.header);
      if e.header.Wrote? then (Appended(c2, Row(row), e.row), e.row.Wrote?) else (c2, false)
    else
      (Appended(c, Row(row), e.row), e.row.Wrote?)
  }

  function LogRow(c: Card, header: string, row: string, maxKb: nat, e: Env): (Card, bool) {
    Filled(if Due(c, maxKb) then Rotate(c, e.faults) else c, header, row, e)
  }

  /* ---- the card, updated in place ---- */

  class EnergyLog {
    const files: array<File>

    ghost predicate Valid()
      reads this, files
    {
      files.Length == GENERATIONS + 1
    }

    ghost function State(): Card
      requires Valid()
      reads this, files
    {
      files[..]
    }

    constructor ()
      ensures Valid() && fresh(files) && State() == [Absent, Absent, Absent, Absent]
    {
      files := new File[GENERATIONS + 1](i => Absent);
      new;
      assert files[..] == [Absent, Absent, Absent, Absent];
    }

    method RenameFile(src: nat, dst: nat, fault: bool) returns (ok: bool)
      requires Valid() && src <= GENERATIONS && dst <= GENERATIONS && src != dst
      modifies files
      ensures State() == Rename(old(State()), src, dst, fault)
      ensures ok == Renames(old(State()), src, dst, fault)
    {
      ok := !fault && files[src].Present? && !files[dst].Present?;
      if ok {
        files[dst] := files[src];
        files[src] := Absent;
      }
    }

    method RotateGenerations(f: Faults)
      requires Valid()
      modifies files
      ensures State() == Rotate(old(State()), f)
    {
      if !f.remove {
        files[3] := Absent;
      }
      ghost var removed := State();
      var gen := 2;
      while gen >= 1
        invariant 0 <= gen <= 2
        invariant State() ==
          if gen == 2 then removed
          else if gen == 1 then Rename(removed, 2, 3, f.two)
          else Rename(Rename(removed, 2, 3, f.two), 1, 2, f.one)
      {
        var _ := RenameFile(gen, gen + 1, if gen == 2 then f.two else f.one);
        gen := gen - 1;
      }
      var _ := RenameFile(0, 1, f.live);
    }

    method AppendLine(line: Line, a: Append) returns (ok: bool)
      requires Valid()
      modifies files
      ensures State() == Appended(old(State()), line, a) && ok == a.Wrote?
    {
      if !a.Nothing? {
        files[0] := Present(Put(Lines(files[0]), line, a));
      }
      return a.Wrote?;
    }

    method LogEnergyCsv(header: string, row: string, maxKb: nat, e: Env) returns (ok: bool)
      requires Valid()
      modifies files
      ensures (State(), ok) == LogRow(old(State()), header, row, maxKb, e)
    {
      if maxKb > 0 && Size(files[0]) >= maxKb * 1024 {
        RotateGenerations(e.faults);
      }
      ok := true;
      if Size(files[0]) == 0 {
        ok := AppendLine(Header(header), e.header);
        if !ok {
          return;
        }
      }
      ok := AppendLine(Row(row), e.row);
    }
  }

  /* ---- what a reader of the files sees ---- */

  /** The rows of generation k of `g` and everything younger, oldest first. */
  function Chain(g: seq<seq<string>>, k: nat): seq<string>
    requires k < |g|
    decreases k
  {
    g[k] + if k == 0 then [] else Chain(g, k - 1)
  }

  function Contents(c: Card): (g: seq<seq<string>>)
    ensures |g| == GENERATIONS + 1
  {
    seq(GENERATIONS + 1, i requires 0 <= i <= GENERATIONS => Rows(Lines(c[i])))
  }

  /** Reading .003, .002, .001 and the live file in that order, headers aside. */
  function Read(c: Card): seq<string> { Chain(Contents(c), GENERATIONS) }

  lemma ChainLink(g: seq<seq<string>>, k: nat)
    requires 0 < k < |g|
    ensures Chain(g, k) == g[k] + Chain(g, k - 1)
  {
  }

  lemma {:induction false} ChainAgrees(g: seq<seq<string>>, h: seq<seq<string>>, k: nat)
    requires k < |g| == |h|
    requires forall i :: 0 <= i <= k ==> g[i] == h[i]
    ensures Chain(g, k) == Chain(h, k)
    decreases k
  {
    if k > 0 { ChainAgrees(g, h, k - 1); }
  }

  lemma SameSum(x: seq<string>, y: seq<string>, v: seq<string>, w: seq<string>)
    requires x == v && y == w
    ensures x + y == v + w
  {
  }

  ghost predicate Same(g: seq<seq<string>>, h: seq<seq<string>>, i: nat)
    requires i < |g| == |h|
  {
    g[i] == h[i]
  }

  lemma {:induction false} ChainAbove(g: seq<seq<string>>, h: seq<seq<string>>, m: nat, n: nat)
    requires m <= n < |g| == |h|
    requires Chain(g, m) == Chain(h, m)
    requires forall i: nat :: m < i <= n ==> Same(g, h, i)
    ensures Chain(g, n) == Chain(h, n)
    decreases n
  {
    if m < n {
      ChainAbove(g, h, m, n - 1);
      assert Same(g, h, n);
      SameSum(g[n], Chain(g, n - 1), h[n], Chain(h, n - 1));
      ChainLink(g, n);
      ChainLink(h, n);
    }
  }

  /** `h` is `g` after an attempt to rename generation k to k + 1. */
  ghost predicate Shifts(g: seq<seq<string>>, h: seq<seq<string>>, k: nat)
    requires k + 1 < |g|
  {
    && |h| == |g|
    && (forall i :: 0 <= i < |g| && i != k && i != k + 1 ==> h[i] == g[i])
    && ((h[k] == g[k] && h[k + 1] == g[k + 1]) || (g[k + 1] == [] && h[k + 1] == g[k] && h[k] == []))
  }

  lemma RenameShifts(c: Card, k: nat, fault: bool)
    requires k < GENERATIONS
    ensures Shifts(Contents(c), Contents(Rename(c, k, k + 1, fault)), k)
  {}

  /** A rename moves rows towards the old end without reordering them. */
  lemma ShiftKeepsChain(g: seq<seq<string>>, h: seq<seq<string>>, k: nat, n: nat)
    requires k < n < |g| && Shifts(g, h, k)
    ensures Chain(h, n) == Chain(g, n)
  {
    ShiftKeepsPair(g, h, k);
    forall i: nat | k + 1 < i <= n ensures Same(g, h, i) { assert h[i] == g[i]; }
    ChainAbove(g, h, k + 1, n);
  }

  lemma ShiftKeepsPair(g: seq<seq<string>>, h: seq<seq<string>>, k: nat)
    requires k + 1 < |g| && Shifts(g, h, k)
    ensures Chain(h, k + 1) == Chain(g, k + 1)
  {
    var rest := if k == 0 then [] else Chain(g, k - 1);
    if k > 0 { ChainAgrees(g, h, k - 1); }
    assert Chain(g, k) == g[k] + rest && Chain(h, k) == h[k] + rest;
    if h[k] != g[k] || h[k + 1] != g[k + 1] {
      assert [] + (g[k] + rest) == g[k] + ([] + rest);
    }
  }

  ghost predicate Drops(g: seq<seq<string>>, h: seq<seq<string>>, remove: bool)
    requires |g| == GENERATIONS + 1
  {
    && |h| == |g|
    && (forall i :: 0 <= i < 3 ==> h[i] == g[i])
    && h[3] == if remove then g[3] else []
  }

  /** The row contents after each step of a rotation. */
  ghost predicate Rotates(g0: seq<seq<string>>, remove: bool, g4: seq<seq<string>>) {
    |g0| == GENERATIONS + 1 && exists g1, g2, g3 ::
      Drops(g0, g1, remove) && Shifts(g1, g2, 2) && Shifts(g2, g3, 1) && Shifts(g3, g4, 0)
  }

  lemma RotateRotates(c: Card, f: Faults)
    ensures Rotates(Contents(c), f.remove, Contents(Rotate(c, f)))
  {
    var c1 := Remove(c, 3, f.remove);
    var c2 := Rename(c1, 2, 3, f.two);
    var c3 := Rename(c2, 1, 2, f.one);
    assert Drops(Contents(c), Contents(c1), f.remove);
    RenameShifts(c1, 2, f.two);
    RenameShifts(c2, 1, f.one);
    RenameShifts(c3, 0, f.live);
  }

  /** A rotation loses the rows of .003 if that file could be removed, and
      nothing else; it keeps all others in order, whichever renames fail. */
  lemma RotateDropsOldest(c: Card, f: Faults)
    ensures Read(c) == (if f.remove then [] else Rows(Lines(c[3]))) + Read(Rotate(c, f))
  {
    RotateRotates(c, f);
    RotatesDropsOldest(Contents(c), f.remove, Contents(Rotate(c, f)));
  }

  lemma RotatesDropsOldest(g0: seq<seq<string>>, remove: bool, g4: seq<seq<string>>)
    requires Rotates(g0, remove, g4)
    ensures |g4| == |g0| && Chain(g0, 3) == (if remove then [] else g0[3]) + Chain(g4, 3)
  {
    var g1, g2, g3 :| Drops(g0, g1, remove) && Shifts(g1, g2, 2) && Shifts(g2, g3, 1) && Shifts(g3, g4, 0);
    ShiftKeepsChain(g1, g2, 2, 3);
    ShiftKeepsChain(g2, g3, 1, 3);
    ShiftKeepsChain(g3, g4, 0, 3);
    DropsOldest(g0, g1, remove);
  }

  lemma DropsOldest(g: seq<seq<string>>, h: seq<seq<string>>, remove: bool)
    requires |g| == GENERATIONS + 1 && Drops(g, h, remove)
    ensures Chain(g, 3) == (if remove then [] else g[3]) + Chain(h, 3)
  {
    if remove {
      ChainAgrees(g, h, 3);
      assert [] + Chain(g, 3) == Chain(g, 3);
    } else {
      ChainAgrees(g, h, 2);
      assert Chain(h, 3) == [] + Chain(g, 2) == Chain(g, 2);
    }
  }

  lemma {:induction false} RowsConcat(xs: seq<Line>, ys: seq<Line>)
    ensures Rows(xs + ys) == Rows(xs) + Rows(ys)
    decreases |ys|
  {
    if ys == [] {
      assert xs + ys == xs;
    } else {
      assert (xs + ys)[..|xs + ys| - 1] == xs + ys[..|ys| - 1];
      RowsConcat(xs, ys[..|ys| - 1]);
    }
  }

  function Text(line: Line): seq<string> { if line.Row? then [line.text] else [] }

  lemma RowsOfOne(line: Line)
    ensures Rows([line]) == Text(line)
  {
    assert [line][..0] == [];
  }

  /** What an append to `ls` adds to the rows: nothing, if the file ends in a part. */
  function Landing(ls: seq<Line>, line: Line, a: Append): seq<string> {
    if a.Landed() && Loose(ls) == "" then Text(line) else []
  }

  lemma PutAddsRows(ls: seq<Line>, line: Line, a: Append)
    ensures Rows(Put(ls, line, a)) == Rows(ls) + Landing(ls, line, a)
  {
    assert Rows(Finished(ls)) == Rows(ls);
    if !a.Nothing? {
      var last := Put(ls, line, a)[|Finished(ls)|];
      RowsConcat(Finished(ls), [last]);
      RowsOfOne(last);
    }
  }

  lemma AppendedContents(c: Card, line: Line, a: Append)
    ensures Contents(Appended(c, line, a)) == Contents(c)[0 := Contents(c)[0] + Landing(Lines(c[0]), line, a)]
  {
    PutAddsRows(Lines(c[0]), line, a);
    if a.Nothing? { assert Contents(c)[0] + [] == Contents(c)[0]; }
  }

  lemma {:induction false} LiveExtendsChain(g: seq<seq<string>>, x: seq<string>, k: nat)
    requires k < |g|
    ensures Chain(g[0 := g[0] + x], k) == Chain(g, k) + x
    decreases k
  {
    if k == 0 {
      assert (g[0] + x) + [] == (g[0] + []) + x;
    } else {
      LiveExtendsChain(g, x, k - 1);
      assert g[k] + (Chain(g, k - 1) + x) == (g[k] + Chain(g, k - 1)) + x;
    }
  }

  lemma AppendExtendsChain(c: Card, line: Line, a: Append, k: nat)
    requires k <= GENERATIONS
    ensures Chain(Contents(Appended(c, line, a)), k) == Chain(Contents(c), k) + Landing(Lines(c[0]), line, a)
  {
    AppendedContents(c, line, a);
    LiveExtendsChain(Contents(c), Landing(Lines(c[0]), line, a), k);
  }

  /* ---- runs ---- */

  datatype Event = Log(header: string, row: string, maxKb: nat, env: Env)

  /** The card and every row that ever reached it whole. */
  datatype World = World(card: Card, all: seq<string>)

  const FRESH := World([Absent, Absent, Absent, Absent], [])

  function Rotated(c: Card, e: Event): Card {
    if Due(c, e.maxKb) then Rotate(c, e.env.faults) else c
  }

  /** The row is appended behind a whole line, or behind the header just written. */
  predicate RowLands(c: Card, e: Event) {
    var live := Rotated(c, e)[0];
    e.env.row.Landed() && if Size(live) == 0 then e.env.header.Wrote? else Loose(Lines(live)) == ""
  }

  function Logged(c: Card, e: Event): Card { LogRow(c, e.header, e.row, e.maxKb, e.env).0 }

  function NewRow(c: Card, e: Event): seq<string> { if RowLands(c, e) then [e.row] else [] }

  function Step(w: World, e: Event): World {
    World(Logged(w.card, e), w.all + NewRow(w.card, e))
  }

  function Run(w: World, es: seq<Event>): World
    decreases |es|
  {
    if es == [] then w else Step(Run(w, es[..|es| - 1]), es[|es| - 1])
  }

  ghost predicate Suffix(s: seq<string>, all: seq<string>) {
    |s| <= |all| && s == all[|all| - |s|..]
  }

  lemma SuffixOf(p: seq<string>, s: seq<string>)
    ensures Suffix(s, p + s)
  {}

  lemma SuffixTransitive(x: seq<string>, y: seq<string>, z: seq<string>)
    requires Suffix(x, y) && Suffix(y, z)
    ensures Suffix(x, z)
  {}

  lemma SuffixExtends(s: seq<string>, all: seq<string>, x: seq<string>)
    requires Suffix(s, all)
    ensures Suffix(s + x, all + x)
  {}

  lemma EmptyIsWhole(ls: seq<Line>)
    requires Bytes(ls) == 0
    ensures Loose(ls) == ""
  {
  }

  lemma EmptyGetsRow(c: Card, header: string, row: string, e: Env, k: nat)
    requires k <= GENERATIONS && Size(c[0]) == 0
    ensures
      Chain(Contents(Filled(c, header, row, e).0), k)
      == Chain(Contents(c), k) + if e.row.Landed() && e.header.Wrote? then [row] else []
  {
    EmptyIsWhole(Lines(c[0]));
    var c2 := Appended(c, Header(header), e.header);
    AppendExtendsChain(c, Header(header), e.header, k);
    if e.header.Wrote? {
      assert Loose(Lines(c2[0])) == "";
      AppendExtendsChain(c2, Row(row), e.row, k);
    }
  }

  /** After the rotation, one call only adds its row at the end. */
  lemma LogAppends(c: Card, e: Event, k: nat)
    requires k <= GENERATIONS
    ensures Chain(Contents(Logged(c, e)), k) == Chain(Contents(Rotated(c, e)), k) + NewRow(c, e)
  {
    var live := Rotated(c, e);
    if Size(live[0]) == 0 {
      EmptyGetsRow(live, e.header, e.row, e.env, k);
    } else {
      AppendExtendsChain(live, Row(e.row), e.env.row, k);
    }
  }

  lemma RotatedIsSuffix(c: Card, e: Event)
    ensures Suffix(Read(Rotated(c, e)), Read(c))
  {
    if Due(c, e.maxKb) {
      RotateDropsOldest(c, e.env.faults);
      SuffixOf(if e.env.faults.remove then [] else Rows(Lines(c[3])), Read(Rotated(c, e)));
    }
  }

  lemma FreshReadsNothing()
    ensures Read(FRESH.card) == []
  {
    var g := Contents(FRESH.card);
    assert g == [[], [], [], []];
    assert Chain(g, 0) == [] && Chain(g, 1) == [] && Chain(g, 2) == [];
  }

  /** A reader always sees the most recent rows ever written, complete and in
      order, whatever removes and renames failed on the way. */
  lemma {:induction false} ReaderSeesSuffix(es: seq<Event>)
    ensures Suffix(Read(Run(FRESH, es).card), Run(FRESH, es).all)
    decreases |es|
  {
    if es == [] {
      FreshReadsNothing();
    } else {
      var w, e := Run(FRESH, es[..|es| - 1]), es[|es| - 1];
      ReaderSeesSuffix(es[..|es| - 1]);
      RotatedIsSuffix(w.card, e);
      SuffixTransitive(Read(Rotated(w.card, e)), Read(w.card), w.all);
      SuffixExtends(Read(Rotated(w.card, e)), w.all, NewRow(w.card, e));
      LogAppends(w.card, e, GENERATIONS);
    }
  }

  /** A reported success means a row that can be read, exactly if the file it was
      appended to did not end in the middle of a line. */
  lemma ReportedRowIsRead(c: Card, e: Event)
    requires LogRow(c, e.header, e.row, e.maxKb, e.env).1
    ensures
      var live := Rotated(c, e)[0];
      Read(Logged(c, e)) == Read(Rotated(c, e)) + [e.row] <==> Loose(Lines(live)) == ""
  {
    LogAppends(c, e, GENERATIONS);
    var live := Rotated(c, e)[0];
    if Size(live) == 0 { EmptyIsWhole(Lines(live)); }
    assert NewRow(c, e) == if Loose(Lines(live)) == "" then [e.row] else [];
    assert |Read(Rotated(c, e)) + [e.row]| == |Read(Rotated(c, e))| + 1;
  }

  lemma PutHeader(line: Line, a: Append)
    requires a.Wrote?
    ensures Put([], line, a) == [line]
  {
  }

  lemma PutCut(h: Line, text: string)
    requires !h.Part?
    ensures Put([h], Row(text), Cut(|text|)) == [h, Part(text)]
  {
    assert Loose([h]) + text == text;
  }

  lemma PutOnPart(h: Line, first: string, text: string)
    requires |first| > 0
    ensures Put([h, Part(first)], Row(text), Wrote) == [h, Torn(first + text)]
  {
    assert [h, Part(first)][..1] == [h];
  }

  lemma FirstCut(c: Card, header: string, first: string, e: Env)
    requires Lines(c[0]) == [] && e.header.Wrote? && e.row == Cut(|first|)
    ensures Filled(c, header, first, e).0[0] == Present([Header(header), Part(first)])
  {
    PutHeader(Header(header), e.header);
    PutCut(Header(header), first);
  }

  lemma RowOnPart(c: Card, header: string, first: string, row: string, e: Env)
    requires c[0] == Present([Header(header), Part(first)]) && |first| > 0 && e.row.Wrote?
    ensures Filled(c, header, row, e) == (c[0 := Present([Header(header), Torn(first + row)])], true)
  {
    PutOnPart(Header(header), first, row);
    assert Bytes([Header(header), Part(first)]) >= |first|;
  }

  /** So a row logged with success right after one that broke off is lost to a reader:
      both are one line of the file. */
  lemma RowAfterCutIsTorn(header: string, first: string, second: string, e: Env, f: Env)
    requires |first| > 0 && e.header.Wrote? && e.row == Cut(|first|) && f.row.Wrote?
    ensures
      var c := LogRow(FRESH.card, header, first, 0, e).0;
      LogRow(c, header, second, 0, f) == (c[0 := Present([Header(header), Torn(first + second)])], true)
  {
    FirstCut(FRESH.card, header, first, e);
    RowOnPart(LogRow(FRESH.card, header, first, 0, e).0, header, first, second, f);
  }

  /* ---- how long a row stays ---- */

  lemma ChainGrows(g: seq<seq<string>>, k: nat)
    requires k + 1 < |g|
    ensures Suffix(Chain(g, k), Chain(g, k + 1))
  {
    SuffixOf(g[k + 1], Chain(g, k));
  }

  /** A rotation moves a row by at most one generation. */
  lemma RotatesAges(g0: seq<seq<string>>, remove: bool, g4: seq<seq<string>>, k: nat)
    requires Rotates(g0, remove, g4) && k < GENERATIONS
    ensures |g4| == |g0| && Suffix(Chain(g0, k), Chain(g4, k + 1))
  {
    var g1, g2, g3 :| Drops(g0, g1, remove) && Shifts(g1, g2, 2) && Shifts(g2, g3, 1) && Shifts(g3, g4, 0);
    ChainAgrees(g0, g1, k);
    if k < 2 { ChainAgrees(g1, g2, k); }
    if k < 1 { ChainAgrees(g2, g3, k); }
    var before := if k == 2 then g1 else if k == 1 then g2 else g3;
    ChainGrows(before, k);
    if k == 2 { ShiftKeepsChain(g1, g2, 2, 3); }
    if k >= 1 { ShiftKeepsChain(g2, g3, 1, k + 1); }
    ShiftKeepsChain(g3, g4, 0, k + 1);
  }

  function Rotations(w: World, es: seq<Event>): nat
    decreases |es|
  {
    if es == [] then 0 else
      Rotations(w, es[..|es| - 1]) + if Due(Run(w, es[..|es| - 1]).card, es[|es| - 1].maxKb) then 1 else 0
  }

  /** The rows written by a run. */
  function Since(w: World, es: seq<Event>): seq<string>
    decreases |es|
  {
    if es == [] then [] else
      Since(w, es[..|es| - 1]) + NewRow(Run(w, es[..|es| - 1]).card, es[|es| - 1])
  }

  lemma RunGrows(w: World, es: seq<Event>)
    requires es != []
    ensures
      var (front, e) := (es[..|es| - 1], es[|es| - 1]);
      var c := Run(w, front).card;
      && Run(w, es).card == Logged(c, e) && Since(w, es) == Since(w, front) + NewRow(c, e)
      && Rotations(w, es) == Rotations(w, front) + if Due(c, e.maxKb) then 1 else 0
  {
  }

  lemma Associates(x: seq<string>, y: seq<string>, z: seq<string>)
    ensures x + (y + z) == (x + y) + z
  {}

  /** One call, for rows that sit in generation k or younger. */
  lemma LogAges(c: Card, e: Event, kept: seq<string>, k: nat)
    requires k + (if Due(c, e.maxKb) then 1 else 0) <= GENERATIONS
    requires Suffix(kept, Chain(Contents(c), k))
    ensures Suffix(kept + NewRow(c, e),
                   Chain(Contents(Logged(c, e)), k + if Due(c, e.maxKb) then 1 else 0))
  {
    var n := k + if Due(c, e.maxKb) then 1 else 0;
    if Due(c, e.maxKb) {
      RotateRotates(c, e.env.faults);
      RotatesAges(Contents(c), e.env.faults.remove, Contents(Rotated(c, e)), k);
      SuffixTransitive(kept, Chain(Contents(c), k), Chain(Contents(Rotated(c, e)), n));
    }
    LogAppends(c, e, n);
    SuffixExtends(kept, Chain(Contents(Rotated(c, e)), n), NewRow(c, e));
  }

  /** Rows in the live file are still there to read, followed by everything
      written since, for as long as at most three rotations have happened. */
  lemma {:induction false} RowsSurvive(w: World, es: seq<Event>)
    requires Rotations(w, es) <= GENERATIONS
    ensures Suffix(Rows(Lines(w.card[0])) + Since(w, es), Chain(Contents(Run(w, es).card), Rotations(w, es)))
    decreases |es|
  {
    var live := Rows(Lines(w.card[0]));
    if es == [] {
      assert live + [] == live;
    } else {
      var front, e := es[..|es| - 1], es[|es| - 1];
      RunGrows(w, es);
      RowsSurvive(w, front);
      LogAges(Run(w, front).card, e, live + Since(w, front), Rotations(w, front));
      Associates(live, Since(w, front), NewRow(Run(w, front).card, e));
    }
  }

  /* ---- when it rotates, and what a call writes ---- */

  /** Whatever goes wrong: the oldest file goes unless its removal failed, and each other one
      moves one place back exactly if its own rename went through and that place is free
      by then. */
  lemma RotationShifts(c: Card, f: Faults)
    ensures
      var oldest := if f.remove then c[3] else Absent;
      var two := !f.two && c[2].Present? && oldest.Absent?;
      var one := !f.one && c[1].Present? && (two || c[2].Absent?);
      var live := !f.live && c[0].Present? && (one || c[1].Absent?);
      Rotate(c, f) == [if live then Absent else c[0],
                       if live then c[0] else if one then Absent else c[1],
                       if one then c[1] else if two then Absent else c[2],
                       if two then c[2] else oldest]
  {}

  /** Below its limit, or with none set, the live file is not rotated and the older
      generations stay; from the limit on it is, and nothing else touches them. */
  lemma RotatesExactly(c: Card, e: Event)
    ensures e.maxKb == 0 || Size(c[0]) < e.maxKb * 1024 ==>
      forall k :: 1 <= k <= 3 ==> Logged(c, e)[k] == c[k]
    ensures e.maxKb > 0 && Size(c[0]) >= e.maxKb * 1024 ==>
      forall k :: 1 <= k <= 3 ==> Logged(c, e)[k] == Rotate(c, e.env.faults)[k]
  {
    assert forall k :: 1 <= k <= 3 ==> Logged(c, e)[k] == Rotated(c, e)[k];
  }

  /** A call on an empty live file writes the header first, and a row only behind it. */
  lemma EmptyFileGetsHeader(c: Card, header: string, row: string, e: Env)
    requires Lines(c[0]) == []
    ensures
      var (d, ok) := Filled(c, header, row, e);
      && (e.header.Wrote? && e.row.Wrote? ==> d[0] == Present([Header(header), Row(row)]) && ok)
      && (!e.header.Wrote? ==> !ok && forall l <- Lines(d[0]) :: !l.Row?)
      && (ok ==> e.header.Wrote? && e.row.Wrote?)
  {
    if e.header.Wrote? { PutHeader(Header(header), e.header); }
    assert [Header(header)] + [Row(row)] == [Header(header), Row(row)];
  }

  /** A call on a file that ends in a whole line writes the row alone. */
  lemma FilledFileGetsRow(c: Card, header: string, row: string, e: Env)
    requires Lines(c[0]) != [] && !Lines(c[0])[|Lines(c[0])| - 1].Part?
    ensures
      var (d, ok) := Filled(c, header, row, e);
      ok == e.row.Wrote? && (ok ==> d[0] == Present(Lines(c[0]) + [Row(row)]))
  {}

  lemma BytesGrow(ls: seq<Line>, l: Line)
    ensures Bytes(ls + [l]) == Bytes(ls) + |l.text| + if l.Part? then 0 else 1
  {
    assert (ls + [l])[..|ls|] == ls;
  }

  /** The file grows by exactly the characters that reached it and the line's end. */
  lemma AppendGrows(c: Card, line: Line, a: Append)
    requires !line.Part?
    ensures Size(Appended(c, line, a)[0]) == Size(c[0]) + match a
      case Nothing => 0
      case Cut(kept) => if kept < |line.text| then kept else |line.text|
      case _ => |line.text| + 1
  {
    var ls := Lines(c[0]);
    assert Bytes(Finished(ls)) + |Loose(ls)| == Bytes(ls);
    if !a.Nothing? {
      BytesGrow(Finished(ls), Put(ls, line, a)[|Finished(ls)|]);
    }
  }

  /** No file begins with a row. */
  ghost predicate Headed(f: File) { Lines(f) != [] ==> !Lines(f)[0].Row? }

  ghost predicate AllHeaded(c: Card) { forall k :: 0 <= k <= GENERATIONS ==> Headed(c[k]) }

  lemma PutKeepsHead(ls: seq<Line>, line: Line, a: Append)
    requires ls != [] && !ls[0].Row? && (Finished(ls) == [] && Loose(ls) == "" ==> !line.Row?)
    ensures Put(ls, line, a) != [] && !Put(ls, line, a)[0].Row?
  {}

  lemma RotateKeepsHeads(c: Card, f: Faults)
    requires AllHeaded(c)
    ensures AllHeaded(Rotate(c, f))
  {}

  lemma OnlyPart(ls: seq<Line>)
    requires ls != [] && Finished(ls) == [] && Loose(ls) == ""
    ensures Bytes(ls) == 0
  {
    assert ls[..|ls| - 1] == [];
  }

  lemma FillKeepsHeads(c: Card, header: string, row: string, e: Env)
    requires AllHeaded(c)
    ensures AllHeaded(Filled(c, header, row, e).0)
  {
    var ls := Lines(c[0]);
    if Size(c[0]) == 0 {
      var c2 := Appended(c, Header(header), e.header);
      if ls != [] { PutKeepsHead(ls, Header(header), e.header); }
      assert AllHeaded(c2);
      if e.header.Wrote? {
        assert Bytes(ls) == 0;
        EmptyIsWhole(ls);
        var l2 := Lines(c2[0]);
        assert Finished(l2) == l2 != [];
        PutKeepsHead(l2, Row(row), e.row);
      }
    } else {
      if Finished(ls) == [] && Loose(ls) == "" { OnlyPart(ls); }
      PutKeepsHead(ls, Row(row), e.row);
    }
  }

  /** In every run each file, old or live, begins with its header or with what a broken
      write left of one, never with a row: a reader always finds the columns' names first. */
  lemma {:induction false} FilesBeginWithHeader(es: seq<Event>)
    ensures AllHeaded(Run(FRESH, es).card)
    decreases |es|
  {
    if es != [] {
      var w, e := Run(FRESH, es[..|es| - 1]), es[|es| - 1];
      FilesBeginWithHeader(es[..|es| - 1]);
      RotateKeepsHeads(w.card, e.env.faults);
      FillKeepsHeads(Rotated(w.card, e), e.header, e.row, e.env);
    }
  }
}
