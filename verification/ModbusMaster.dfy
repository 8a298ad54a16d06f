/** The RTU master's polling task against the writers that change its
    configuration: every step of the task that touches shared state is one step
    here, and writers may run between any two of them. */
module ModbusMaster {
  import opened CInt
  import opened Options

  const SLOTS: nat := 5
  const OFFLINE_AT := 5
  const OFFLINE_POLL_MS: nat := 30000
  const DEFAULT_PERIOD_MS: nat := 5000
  const CHUNK_MS: nat := 50
  const EM07K := 1

  datatype Slot = Slot(used: bool, enabled: bool, kind: u8, id: u8, name: string)

  const EMPTY := Slot(false, false, 0, 0, "")

  type Table = s: seq<Slot> | |s| == SLOTS witness [EMPTY, EMPTY, EMPTY, EMPTY, EMPTY]

  /** What the task runs on. */
  datatype Runtime = Runtime(bus: bool, baud: u8, parity: u8, periodMs: u32, slots: Table)

  /** The configuration manager's record: the master's fields, and the device's own
      slave link, which the master must not touch. */
  datatype Config = Config(enabled: bool, baud: u8, parity: u8, periodMs: u32, slots: Table, slaveId: u8, slaveBaud: u8)

  /** The older single-device record, used when no configuration can be read. */
  datatype Ext = Ext(enabled: bool, baud: u8, parity: u8, periodMs: u32, addr: u8, device: u8)

  datatype Link = Link(baud: nat, parity: u8)

  function BaudOf(code: u8): nat {
    match code
    case 1 => 19200
    case 2 => 38400
    case 3 => 57600
    case 4 => 115200
    case _ => 9600
  }

  function LinkOf(r: Runtime): Link { Link(BaudOf(r.baud), if r.parity <= 2 then r.parity else 0) }

  function FromConfig(c: Config): Runtime { Runtime(c.enabled, c.baud, c.parity, c.periodMs, c.slots) }

  const NO_SLOTS: Table := [EMPTY, EMPTY, EMPTY, EMPTY, EMPTY]
  const ZEROED := Runtime(false, 0, 0, 0, NO_SLOTS)

  function FromExt(x: Ext): Runtime {
    Runtime(x.enabled, x.baud, x.parity, x.periodMs,
            if 1 <= x.addr <= 247
            then NO_SLOTS[0 := Slot(true, x.enabled, x.device, x.addr, if x.device == EM07K then "EM-07K" else "PM710")]
            else NO_SLOTS)
  }

  function LoadRuntime(got: Option<Config>, x: Ext): Runtime {
    match got
    case Some(c) => FromConfig(c)
    case None => FromExt(x)
  }

  /* ---- what the task must run on, said field by field ---- */

  /** The master's own fields, and nothing of the device's own slave link. */
  ghost predicate RunsOn(r: Runtime, d: Config) {
    && r.bus == d.enabled && r.baud == d.baud && r.parity == d.parity && r.periodMs == d.periodMs
    && forall i: nat :: i < SLOTS ==> r.slots[i] == d.slots[i]
  }

  /** The older record: its single device takes the first slot if its address is a
      slave's, and its name follows from its type. */
  ghost predicate RunsOnOlder(r: Runtime, x: Ext) {
    && r.bus == x.enabled && r.baud == x.baud && r.parity == x.parity && r.periodMs == x.periodMs
    && (forall i: nat :: 1 <= i < SLOTS ==> !r.slots[i].used)
    && (r.slots[0].used <==> 1 <= x.addr <= 247)
    && (r.slots[0].used ==>
          && r.slots[0].enabled == x.enabled && r.slots[0].kind == x.device && r.slots[0].id == x.addr
          && r.slots[0].name == if x.device == 1 then "EM-07K" else "PM710")
  }

  /** The line rates by their codes, and the parities: none, even, odd. */
  ghost predicate OpenedAt(l: Link, baud: u8, parity: u8) {
    && (baud == 0 || baud >= 5 ==> l.baud == 9600) && (baud == 1 ==> l.baud == 19200)
    && (baud == 2 ==> l.baud == 38400) && (baud == 3 ==> l.baud == 57600) && (baud == 4 ==> l.baud == 115200)
    && (parity == 1 <==> l.parity == 1) && (parity == 2 <==> l.parity == 2) && l.parity <= 2
  }

  lemma FromConfigCopies(d: Config)
    ensures RunsOn(FromConfig(d), d)
  {}

  lemma FromExtCopies(x: Ext)
    ensures RunsOnOlder(FromExt(x), x)
  {}

  lemma LinkOpens(r: Runtime)
    ensures OpenedAt(LinkOf(r), r.baud, r.parity)
  {}

  /* ---- one slot's health ---- */

  datatype Health = Health(valid: bool, online: bool, polls: u32, errors: u32)

  const UNKNOWN := Health(false, false, 0, 0)

  type Healths = s: seq<Health> | |s| == SLOTS witness [UNKNOWN, UNKNOWN, UNKNOWN, UNKNOWN, UNKNOWN]

  const NOTHING_KNOWN: Healths := [UNKNOWN, UNKNOWN, UNKNOWN, UNKNOWN, UNKNOWN]

  function Committed(h: Health, ok: bool): Health {
    if ok then Health(true, true, Wrap32(h.polls + 1), 0)
    else
      var errors := Wrap32(h.errors + 1);
      Health(h.valid, h.online && errors < OFFLINE_AT, Wrap32(h.polls + 1), errors)
  }

  /** A new configuration forgets who was online, but keeps the last readings. */
  function Forgotten(hs: Healths): Healths {
    seq(SLOTS, i requires 0 <= i < SLOTS => hs[i].(online := false, errors := 0))
  }

  predicate Wanted(r: Runtime, i: nat)
    requires i < SLOTS
  {
    r.slots[i].used && r.slots[i].enabled
  }

  predicate HardOffline(h: Health) { !h.online && h.errors >= OFFLINE_AT }

  /** Every slot that should answer has been silent for long. */
  predicate AllOffline(r: Runtime, hs: Healths) {
    && (exists i: nat :: i < SLOTS && Wanted(r, i))
    && forall i: nat :: i < SLOTS && Wanted(r, i) ==> HardOffline(hs[i])
  }

  /* ---- the task, one step at a time ---- */

  /** Where the task stands; `next` is the copy it has loaded but not installed. */
  datatype Pc =
    | Top | Clear | Stop | Load | Apply(next: Runtime) | Start(next: Runtime) | Create
    | Gate | Poll(i: nat) | Send(i: nat) | Rest | Sleep(left: nat)

  /** The part of the loop that reloads the configuration. */
  predicate Reloading(pc: Pc) {
    pc.Top? || pc.Clear? || pc.Stop? || pc.Load? || pc.Apply? || pc.Start? || pc.Create?
  }

  /** `created`: the task runs; `started`: whoever created it has said so. The steps up
      to `Create` are the starter's, the others the task's own. */
  datatype Master = Master(pending: bool, created: bool, started: bool, pc: Pc, cfg: Runtime, stackUp: bool, link: Link,
                           health: Healths, cycles: u32)

  /** What the outside answers at this step: the configuration if it can be read,
      the older record, whether the stack starts, whether polling is paused, and
      whether the polled slave replies. */
  datatype Answers = Answers(got: Option<Config>, ext: Ext, startOk: bool, paused: bool, reply: bool)

  function RestPeriod(m: Master): nat {
    if !m.cfg.bus || !m.stackUp then CHUNK_MS
    else if AllOffline(m.cfg, m.health) then OFFLINE_POLL_MS
    else if m.cfg.periodMs > 0 then m.cfg.periodMs
    else DEFAULT_PERIOD_MS
  }

  function Turn(m: Master, a: Answers): Master {
    match m.pc
    case Top => m.(pc := if m.pending then Clear else Gate)
    case Clear => m.(pending := false, pc := Stop)
    case Stop => m.(stackUp := false, pc := Load)
    case Load => m.(pc := Apply(LoadRuntime(a.got, a.ext)))
    case Apply(next) => m.(cfg := next, health := Forgotten(m.health), pc := Start(next))
    case Start(next) =>
      m.(stackUp := next.bus && a.startOk,
         link := if next.bus && a.startOk then LinkOf(next) else m.link,
         pc := if m.created then Gate else Create)
    case Create => m.(created := true, pc := Top)
    case Gate => m.(pc := if a.paused then Sleep(CHUNK_MS) else if m.stackUp && m.cfg.bus then Poll(0) else Rest)
    case Poll(i) =>
      if i >= SLOTS then m.(cycles := if m.pending then m.cycles else Wrap32(m.cycles + 1), pc := Rest)
      else if m.pending then m.(pc := Rest)
      else if Wanted(m.cfg, i) then m.(pc := Send(i))
      else m.(pc := Poll(i + 1))
    case Send(i) =>
      if i < SLOTS then m.(health := m.health[i := Committed(m.health[i], a.reply)], pc := Poll(i + 1)) else m
    case Rest => m.(pc := Sleep(RestPeriod(m)))
    case Sleep(left) =>
      m.(pc := if left == 0 || m.pending then Top else Sleep(if left > CHUNK_MS then left - CHUNK_MS else 0))
  }

  /** One step of the task, of its starter once the task exists, or of a writer. */
  datatype Move = Turned(a: Answers) | Started | Raised

  function After(m: Master, e: Move): Master {
    match e
    case Turned(a) => Turn(m, a)
    case Started => m.(started := m.started || m.created)
    case Raised => m.(pending := m.pending || m.started)
  }

  function Moves(m: Master, es: seq<Move>): Master {
    if es == [] then m else After(Moves(m, es[..|es| - 1]), es[|es| - 1])
  }

  const NO_LINK := Link(0, 0)
  const BOOT := Master(false, false, false, Load, ZEROED, false, NO_LINK, NOTHING_KNOWN, 0)

  class ModbusMaster {
    var pending: bool
    var created: bool
    var started: bool
    var pc: Pc
    var cfg: Runtime
    var stackUp: bool
    var link: Link
    const health: array<Health>
    var cycles: u32

    ghost predicate Valid() { health.Length == SLOTS }

    ghost function State(): Master
      reads this, health
      requires Valid()
    {
      Master(pending, created, started, pc, cfg, stackUp, link, health[..], cycles)
    }

    constructor ()
      ensures Valid() && fresh(health) && State() == BOOT
    {
      pending, created, started, pc, cfg, stackUp, link, cycles := false, false, false, Load, ZEROED, false, NO_LINK, 0;
      health := new Health[SLOTS](i => UNKNOWN);
      new;
      assert health[..] == NOTHING_KNOWN;
    }

    method CommitSlot(i: nat, ok: bool)
      requires Valid() && i < SLOTS
      modifies health
      ensures health[..] == old(health[..])[i := Committed(old(health[i]), ok)]
    {
      var h := health[i];
      if ok {
        health[i] := Health(true, true, Wrap32(h.polls + 1), 0);
      } else {
        var errors := Wrap32(h.errors + 1);
        var online := h.online;
        if errors == OFFLINE_AT && online {
          online := false;
        } else if errors >= OFFLINE_AT {
          online := false;
        }
        health[i] := Health(h.valid, online, Wrap32(h.polls + 1), errors);
      }
    }

    method ApplySnapshot(next: Runtime)
      requires Valid()
      modifies `cfg, health
      ensures cfg == next && health[..] == Forgotten(old(health[..]))
    {
      ghost var was: Healths := health[..];
      cfg := next;
      for i := 0 to SLOTS
        invariant cfg == next
        invariant forall k :: 0 <= k < i ==> health[k] == was[k].(online := false, errors := 0)
        invariant forall k :: i <= k < SLOTS ==> health[k] == was[k]
      {
        health[i] := health[i].(online := false, errors := 0);
      }
      assert health[..] == Forgotten(was);
    }

    /** Counts the enabled slots and those long silent. */
    method EverySlotOffline() returns (all: bool)
      requires Valid()
      ensures all == AllOffline(cfg, health[..])
    {
      var enabled, hardOff := 0, 0;
      for i: nat := 0 to SLOTS
        invariant 0 <= hardOff <= enabled
        invariant enabled > 0 <==> exists k: nat :: k < i && Wanted(cfg, k)
        invariant hardOff == enabled <==> forall k: nat :: k < i && Wanted(cfg, k) ==> HardOffline(health[k])
      {
        if Wanted(cfg, i) {
          enabled := enabled + 1;
          if HardOffline(health[i]) { hardOff := hardOff + 1; }
        }
      }
      all := enabled > 0 && hardOff == enabled;
    }

    /** The reload at the head of the task's loop. */
    method AdvanceReload(a: Answers)
      requires Valid() && Reloading(pc)
      modifies this, health
      ensures State() == Turn(old(State()), a)
    {
      match pc
      case Top => pc := if pending then Clear else Gate;
      case Clear => pending, pc := false, Stop;
      case Stop => stackUp, pc := false, Load;
      case Load => pc := Apply(LoadRuntime(a.got, a.ext));
      case Apply(next) =>
        ApplySnapshot(next);
        pc := Start(next);
      case Start(next) =>
        stackUp := false;
        if next.bus && a.startOk { stackUp, link := true, LinkOf(next); }
        pc := if created then Gate else Create;
      case Create => created, pc := true, Top;
    }

    /** The poll cycle and the interruptible sleep after it. */
    method AdvancePolling(a: Answers)
      requires Valid() && !Reloading(pc)
      modifies this, health
      ensures State() == Turn(old(State()), a)
    {
      match pc
      case Gate =>
        pc := if a.paused then Sleep(CHUNK_MS) else if stackUp && cfg.bus then Poll(0) else Rest;
      case Poll(i) =>
        if i >= SLOTS {
          if !pending { cycles := Wrap32(cycles + 1); }
          pc := Rest;
        } else if pending {
          pc := Rest;
        } else {
          pc := if Wanted(cfg, i) then Send(i) else Poll(i + 1);
        }
      case Send(i) =>
        if i < SLOTS {
          CommitSlot(i, a.reply);
          pc := Poll(i + 1);
        }
      case Rest =>
        if !cfg.bus || !stackUp {
          pc := Sleep(CHUNK_MS);
        } else {
          var all := EverySlotOffline();
          var period: nat := if cfg.periodMs > 0 then cfg.periodMs else DEFAULT_PERIOD_MS;
          pc := Sleep(if all then OFFLINE_POLL_MS else period);
        }
      case Sleep(left) =>
        if left == 0 || pending {
          pc := Top;
        } else {
          pc := Sleep(left - if left > CHUNK_MS then CHUNK_MS else left);
        }
    }

    /** The task's next step. */
    method Advance(a: Answers)
      requires Valid()
      modifies this, health
      ensures State() == Turn(old(State()), a)
    {
      if Reloading(pc) { AdvanceReload(a); } else { AdvancePolling(a); }
    }

    /** A writer asks for a reload; before the task exists it is told so. */
    method Reconfigure() returns (ok: bool)
      requires Valid()
      modifies `pending
      ensures ok == started && pending == (old(pending) || started)
    {
      ok := started;
      if started { pending := true; }
    }

    /** The starter's last step, some time after it created the task. */
    method MarkStarted()
      requires Valid()
      modifies `started
      ensures started == (old(started) || created)
    {
      if created { started := true; }
    }

    /** Any interleaving of the task with its starter and its writers. */
    method Interleave(es: seq<Move>)
      requires Valid()
      modifies this, health
      ensures State() == Moves(old(State()), es)
    {
      for k := 0 to |es|
        invariant State() == Moves(old(State()), es[..k])
      {
        match es[k] {
          case Turned(a) => Advance(a);
          case Started => MarkStarted();
          case Raised => var ok := Reconfigure();
        }
        assert es[..k + 1][..k] == es[..k];
      }
      assert es[..|es|] == es;
    }
  }

  /* ---- the task among its writers ---- */

  /** One task step (with whether the configuration could be read), the starter marking
      the task as started, a committed configuration update, and a request for a reload. */
  datatype Event = Task(readOk: bool, startOk: bool, paused: bool, reply: bool) | Mark | Update(c: Config) | Raise

  /** Where a loaded copy came from: version `at` of the configuration, or the
      older record because that version could not be read. */
  datatype Source = Snapshot(at: nat) | Fallback(at: nat)

  /** A slave polled on the bus; how many telegrams that takes depends on its type. */
  datatype BusPoll = BusPoll(link: Link, id: u8)

  datatype Trace = Polled(i: nat, ok: bool) | Installed

  /** The master, every configuration ever committed, the version at the latest
      accepted request, the origins of the loaded and of the installed copy, and
      the record of polls sent and of their answers. */
  datatype World = World(m: Master, configs: seq<Config>, ext: Ext, requested: nat, loaded: Source, installed: Source,
                         installs: nat, sent: seq<BusPoll>, marks: seq<Trace>)

  function Latest(w: World): nat
    requires w.configs != []
  {
    |w.configs| - 1
  }

  function Answer(w: World, e: Event): Answers
    requires w.configs != [] && e.Task?
  {
    Answers(if e.readOk then Some(w.configs[Latest(w)]) else None, w.ext, e.startOk, e.paused, e.reply)
  }

  function Step(w: World, e: Event): (v: World)
    requires w.configs != []
    ensures v.configs != []
  {
    match e
    case Update(c) => w.(configs := w.configs + [c])
    case Mark => w.(m := After(w.m, Started))
    case Raise => w.(m := After(w.m, Raised), requested := if w.m.started then Latest(w) else w.requested)
    case Task(readOk, _, _, reply) =>
      var v := w.(m := After(w.m, Turned(Answer(w, e))));
      match w.m.pc
      case Load => v.(loaded := if readOk then Snapshot(Latest(w)) else Fallback(Latest(w)))
      case Apply(_) => v.(installed := w.loaded, installs := w.installs + 1, marks := w.marks + [Installed])
      case Send(i) =>
        if i < SLOTS
        then v.(sent := w.sent + [BusPoll(w.m.link, w.m.cfg.slots[i].id)], marks := w.marks + [Polled(i, reply)])
        else v
      case _ => v
  }

  function Initial(c: Config, x: Ext): World {
    World(BOOT, [c], x, 0, Snapshot(0), Snapshot(0), 0, [], [])
  }

  function Run(w: World, es: seq<Event>): (v: World)
    requires w.configs != []
    ensures v.configs != []
  {
    if es == [] then w else Step(Run(w, es[..|es| - 1]), es[|es| - 1])
  }

  /** What a copy of the given origin must contain. */
  ghost predicate CopyOf(w: World, r: Runtime, from: Source) {
    match from
    case Snapshot(at) => at < |w.configs| && r == FromConfig(w.configs[at])
    case Fallback(at) => at < |w.configs| && r == FromExt(w.ext)
  }

  /** Has the reload that answers all accepted requests been loaded already? */
  ghost predicate NothingOwed(w: World) {
    match w.m.pc
    case Stop => true
    case Load => true
    case Apply(_) => w.loaded.at >= w.requested
    case _ => w.installed.at >= w.requested
  }

  ghost predicate Inv(w: World) {
    var m := w.m;
    && w.configs != [] && w.requested < |w.configs| && w.installed.at <= w.loaded.at < |w.configs|
    && (m.pc.Apply? ==> CopyOf(w, m.pc.next, w.loaded))
    && (w.installs > 0 ==> CopyOf(w, m.cfg, w.installed))
    && (m.pc.Start? ==> m.cfg == m.pc.next && w.installs > 0)
    && (m.created || m.pc.Create? ==> w.installs > 0)
    && (!m.created ==> !m.started && (m.pc.Load? || m.pc.Apply? || m.pc.Start? || m.pc.Create?))
    && (!m.started ==> !m.pending && w.requested == 0)
    && (m.created ==> !m.pc.Create?)
    && (m.created && !m.started ==> m.pc.Top? || !Reloading(m.pc))
    && (m.pc.Clear? ==> m.pending)
    && (m.pending || NothingOwed(w))
    && (m.stackUp ==> m.cfg.bus && m.link == LinkOf(m.cfg))
    && (m.pc.Load? || m.pc.Apply? || m.pc.Start? ==> !m.stackUp)
    && (m.pc.Poll? || m.pc.Send? ==> m.stackUp)
    && (m.pc.Send? ==> m.pc.i < SLOTS && Wanted(m.cfg, m.pc.i))
  }

  lemma ReloadKeeps(w: World, e: Event)
    requires Inv(w) && e.Task? && Reloading(w.m.pc)
    ensures Inv(Step(w, e))
  {
  }

  lemma PollKeeps(w: World, e: Event)
    requires Inv(w) && e.Task? && (w.m.pc.Poll? || w.m.pc.Send?)
    ensures Inv(Step(w, e))
  {
  }

  lemma RestKeeps(w: World, e: Event)
    requires Inv(w) && e.Task? && (w.m.pc.Gate? || w.m.pc.Rest? || w.m.pc.Sleep?)
    ensures Inv(Step(w, e))
  {
  }

  lemma StepKeeps(w: World, e: Event)
    requires Inv(w)
    ensures Inv(Step(w, e))
  {
    match e
    case Task(_, _, _, _) =>
      if Reloading(w.m.pc) {
        ReloadKeeps(w, e);
      } else if w.m.pc.Poll? || w.m.pc.Send? {
        PollKeeps(w, e);
      } else {
        RestKeeps(w, e);
      }
    case Update(c) =>
    case Mark =>
    case Raise =>
  }

  lemma {:induction false} RunKeeps(w: World, es: seq<Event>)
    requires Inv(w)
    ensures Inv(Run(w, es))
    decreases |es|
  {
    if es != [] {
      RunKeeps(w, es[..|es| - 1]);
      StepKeeps(Run(w, es[..|es| - 1]), es[|es| - 1]);
    }
  }

  /* ---- what the request flag promises ---- */

  /** The flag is down and the copy the task runs on is the one last loaded. */
  predicate Quiet(m: Master) {
    m.started && !m.pending && !m.pc.Stop? && !m.pc.Load? && !m.pc.Apply?
  }

  /** What runs is at least as new as the configuration at the latest accepted
      request, and has every field of the committed configuration it names, unless
      that load could not read it and took the older record instead. The bus, when it
      is open, is open at that configuration's rate and parity. */
  ghost predicate RequestServed(w: World) {
    && w.installed.at >= w.requested
    && w.installed.at < |w.configs|
    && (w.installed.Snapshot? ==> RunsOn(w.m.cfg, w.configs[w.installed.at]))
    && (w.installed.Fallback? ==> RunsOnOlder(w.m.cfg, w.ext))
    && (w.m.stackUp ==> w.m.cfg.bus && OpenedAt(w.m.link, w.m.cfg.baud, w.m.cfg.parity))
  }

  lemma InvServes(w: World)
    requires Inv(w) && Quiet(w.m)
    ensures RequestServed(w)
  {
    LinkOpens(w.m.cfg);
    match w.installed
    case Snapshot(at) => FromConfigCopies(w.configs[at]);
    case Fallback(_) => FromExtCopies(w.ext);
  }

  /** No interleaving of the task with updates and requests loses a request. */
  lemma NoRequestLost(c: Config, x: Ext, es: seq<Event>)
    requires Quiet(Run(Initial(c, x), es).m)
    ensures RequestServed(Run(Initial(c, x), es))
  {
    RunKeeps(Initial(c, x), es);
    InvServes(Run(Initial(c, x), es));
  }

  lemma RunPush(w: World, es: seq<Event>, e: Event)
    requires w.configs != []
    ensures Run(w, es + [e]) == Step(Run(w, es), e)
  {
    assert (es + [e])[..|es|] == es;
  }

  const GO := Task(true, true, false, true)

  lemma FirstLoad(c: Config, x: Ext, d: Config)
    ensures
      var w := Run(Initial(c, x), [GO, Update(d), Raise]);
      w.m == BOOT.(pc := Apply(FromConfig(c))) && w.configs == [c, d]
  {
    var w := Initial(c, x);
    assert [] + [GO] == [GO] && [GO] + [Update(d)] == [GO, Update(d)];
    assert [GO, Update(d)] + [Raise] == [GO, Update(d), Raise];
    RunPush(w, [], GO);
    RunPush(w, [GO], Update(d));
    RunPush(w, [GO, Update(d)], Raise);
  }

  lemma StartCompletes(w: World)
    requires w.configs != [] && w.m.pc.Apply? && !w.m.created && !w.m.pending
    ensures
      var v := Step(Step(Step(Step(w, GO), GO), GO), Mark);
      Quiet(v.m) && v.m.cfg == w.m.pc.next && v.configs == w.configs
  {
  }

  /** An update that lands between the boot-time load and the moment the task is marked
      as started is not picked up, although the flag is down and the task runs. */
  lemma UpdateDuringStartIsMissed(c: Config, x: Ext, d: Config)
    ensures
      var w := Run(Initial(c, x), [GO, Update(d), Raise] + [GO] + [GO] + [GO] + [Mark]);
      Quiet(w.m) && RunsOn(w.m.cfg, c) && w.configs[Latest(w)] == d
  {
    var w, three := Initial(c, x), [GO, Update(d), Raise];
    FirstLoad(c, x, d);
    StartCompletes(Run(w, three));
    RunPush(w, three, GO);
    RunPush(w, three + [GO], GO);
    RunPush(w, three + [GO] + [GO], GO);
    RunPush(w, three + [GO] + [GO] + [GO], Mark);
  }

  /* ---- which updates are picked up ---- */

  /** Only the task and its starter move; the writers rest. */
  predicate WritersRest(fs: seq<Event>) { forall k :: 0 <= k < |fs| ==> fs[k].Task? || fs[k].Mark? }

  /** An update, and the request for it. */
  function Submit(w: World, d: Config): (v: World)
    requires w.configs != []
    ensures v.configs != []
  {
    Step(Step(w, Update(d)), Raise)
  }

  /** Version `n` has yet to be loaded, is loaded, or runs. */
  ghost predicate OnItsWay(w: World, n: nat) {
    w.m.pc.Load? || (w.m.pc.Apply? && w.loaded.at == n) || w.installed.at == n
  }

  /** An older version runs or is about to, and nothing asks for another. */
  ghost predicate Overlooked(w: World, n: nat) {
    && !w.m.pending && !w.m.pc.Load? && !w.m.pc.Stop? && !w.m.pc.Clear?
    && (w.m.pc.Apply? ==> w.loaded.at < n) && w.installed.at < n
  }

  lemma RestStep(w: World, e: Event, n: nat)
    requires Inv(w) && (e.Task? || e.Mark?) && n == Latest(w)
    ensures Step(w, e).configs == w.configs && Step(w, e).requested == w.requested
    ensures OnItsWay(w, n) ==> OnItsWay(Step(w, e), n)
    ensures Overlooked(w, n) ==> Overlooked(Step(w, e), n)
  {
  }

  lemma {:induction false} RestRun(w: World, fs: seq<Event>, n: nat)
    requires Inv(w) && WritersRest(fs) && n == Latest(w)
    ensures Run(w, fs).configs == w.configs && Run(w, fs).requested == w.requested
    ensures OnItsWay(w, n) ==> OnItsWay(Run(w, fs), n)
    ensures Overlooked(w, n) ==> Overlooked(Run(w, fs), n)
    decreases |fs|
  {
    if fs != [] {
      var front := fs[..|fs| - 1];
      RestRun(w, front, n);
      RunKeeps(w, front);
      RestStep(Run(w, front), fs[|fs| - 1], n);
    }
  }

  lemma Submitted(w: World, d: Config)
    requires Inv(w)
    ensures Inv(Submit(w, d)) && Latest(Submit(w, d)) == |w.configs|
    ensures w.m.started ==> Submit(w, d).requested == |w.configs|
    ensures !w.m.started && w.m.pc.Load? ==> OnItsWay(Submit(w, d), |w.configs|)
    ensures !w.m.started && !w.m.pc.Load? ==> Overlooked(Submit(w, d), |w.configs|)
  {
    StepKeeps(w, Update(d));
    StepKeeps(Step(w, Update(d)), Raise);
  }

  /** Which updates reach the task: wherever the system stands when an update is made
      and a reload requested, once everything has come to rest the task runs on that
      very version, or on what it fell back to because it could not read it, exactly if the
      task had been marked as started by then, or its starter had not loaded yet. */
  lemma PickedUpExactly(c: Config, x: Ext, es: seq<Event>, d: Config, fs: seq<Event>)
    requires WritersRest(fs) && Quiet(Run(Submit(Run(Initial(c, x), es), d), fs).m)
    ensures
      var w := Run(Initial(c, x), es);
      var v := Run(Submit(w, d), fs);
      && v.configs == w.configs + [d]
      && (v.installed.at == Latest(v) <==> w.m.started || w.m.pc.Load?)
      && (v.installed.at == Latest(v) && v.installed.Snapshot? ==> RunsOn(v.m.cfg, d))
      && (v.installed.at == Latest(v) && v.installed.Fallback? ==> RunsOnOlder(v.m.cfg, v.ext))
  {
    var w := Run(Initial(c, x), es);
    RunKeeps(Initial(c, x), es);
    Submitted(w, d);
    RunKeeps(Submit(w, d), fs);
    RestRun(Submit(w, d), fs, |w.configs|);
    InvServes(Run(Submit(w, d), fs));
  }

  /** At most so many task steps until a copy of version `r` or newer is installed. */
  function Rank(w: World, r: nat): nat {
    if w.installed.at >= r && w.installs > 0 then 0 else
    match w.m.pc
    case Load => 2
    case Stop => 3
    case Clear => 4
    case Top => 5
    case Create => 6
    case Sleep(_) => 6
    case Rest => 7
    case Poll(_) => 8
    case Send(_) => 9
    case Gate => 9
    case Start(_) => 10
    case Apply(_) => if w.loaded.at >= r then 1 else 11
  }

  function Turns(es: seq<Event>): nat {
    if es == [] then 0 else Turns(es[..|es| - 1]) + (if es[|es| - 1].Task? then 1 else 0)
  }

  lemma RankFalls(w: World, e: Event, r: nat)
    requires Inv(w) && r <= w.requested
    ensures Rank(Step(w, e), r) <= Rank(w, r)
    ensures e.Task? && Rank(w, r) > 0 ==> Rank(Step(w, e), r) < Rank(w, r)
    ensures Step(w, e).requested >= w.requested
  {
  }

  lemma {:induction false} RankBoundsRun(w: World, es: seq<Event>, r: nat)
    requires Inv(w) && r <= w.requested
    ensures Run(w, es).requested >= w.requested
    ensures Rank(Run(w, es), r) + Turns(es) <= Rank(w, r) || Rank(Run(w, es), r) == 0
    decreases |es|
  {
    if es != [] {
      var front := es[..|es| - 1];
      RankBoundsRun(w, front, r);
      RunKeeps(w, front);
      RankFalls(Run(w, front), es[|es| - 1], r);
    }
  }

  /** Eleven steps of the task serve a request, wherever the task stands when it
      is raised, whatever the writers do meanwhile and however long the sleep it
      interrupts was meant to be. */
  lemma ReloadIsPrompt(c: Config, x: Ext, es: seq<Event>, more: seq<Event>)
    requires Run(Initial(c, x), es).m.started && Turns(more) >= 11
    ensures Run(Run(Initial(c, x), es), more).installed.at >= Run(Initial(c, x), es).requested
  {
    var w := Run(Initial(c, x), es);
    RunKeeps(Initial(c, x), es);
    RankBoundsRun(w, more, w.requested);
  }

  function InFlight(w: World): nat { if w.m.pc.Send? then 1 else 0 }

  /** A reload is owed, and the poll that may be under way is the last before it. */
  ghost predicate Winding(w: World, installs: nat, budget: nat) {
    && w.installs == installs
    && (w.m.pending || w.m.pc.Stop? || w.m.pc.Load? || w.m.pc.Apply?)
    && |w.sent| + InFlight(w) <= budget
  }

  lemma WindingStep(w: World, e: Event, installs: nat, budget: nat)
    requires Inv(w) && Winding(w, installs, budget)
    ensures Winding(Step(w, e), installs, budget) || Step(w, e).installs > installs
  {
  }

  lemma InstallsOnlyGrow(w: World, e: Event)
    requires w.configs != []
    ensures Step(w, e).installs >= w.installs
  {
  }

  lemma {:induction false} WindingRun(w: World, es: seq<Event>, budget: nat)
    requires Inv(w) && Winding(w, w.installs, budget)
    ensures Winding(Run(w, es), w.installs, budget) || Run(w, es).installs > w.installs
    decreases |es|
  {
    if es != [] {
      var front := es[..|es| - 1];
      WindingRun(w, front, budget);
      RunKeeps(w, front);
      InstallsOnlyGrow(Run(w, front), es[|es| - 1]);
      if Winding(Run(w, front), w.installs, budget) {
        WindingStep(Run(w, front), es[|es| - 1], w.installs, budget);
      }
    }
  }

  /** Once a request is up, at most the one poll already under way still reaches
      the bus before a new configuration is installed. */
  lemma AtMostOneMorePoll(c: Config, x: Ext, es: seq<Event>, more: seq<Event>)
    requires Run(Initial(c, x), es).m.pending
    requires Run(Run(Initial(c, x), es), more).installs == Run(Initial(c, x), es).installs
    ensures |Run(Run(Initial(c, x), es), more).sent| <= |Run(Initial(c, x), es).sent| + 1
  {
    var w := Run(Initial(c, x), es);
    RunKeeps(Initial(c, x), es);
    WindingRun(w, more, |w.sent| + 1);
  }

  /** The bus only carries polls of slots that the installed configuration uses
      and enables, at that configuration's line settings and with its bus on. */
  ghost predicate PollAllowed(w: World, f: BusPoll) {
    && w.m.cfg.bus && OpenedAt(f.link, w.m.cfg.baud, w.m.cfg.parity)
    && exists i: nat :: i < SLOTS && Wanted(w.m.cfg, i) && w.m.cfg.slots[i].id == f.id
  }

  lemma InvAllows(w: World, e: Event)
    requires Inv(w)
    ensures Step(w, e).sent == w.sent
         || (exists f :: Step(w, e).sent == w.sent + [f] && PollAllowed(w, f))
  {
    if e.Task? && w.m.pc.Send? {
      LinkOpens(w.m.cfg);
      assert PollAllowed(w, BusPoll(w.m.link, w.m.cfg.slots[w.m.pc.i].id));
    }
  }

  lemma PollsFollowTheConfig(c: Config, x: Ext, es: seq<Event>, e: Event)
    ensures
      var w := Run(Initial(c, x), es);
      Step(w, e).sent == w.sent || (exists f :: Step(w, e).sent == w.sent + [f] && PollAllowed(w, f))
  {
    RunKeeps(Initial(c, x), es);
    InvAllows(Run(Initial(c, x), es), e);
  }

  /* ---- who is online ---- */

  /** Polls of slot `i` missed in a row since it last answered or was installed. */
  function Misses(marks: seq<Trace>, i: nat): nat {
    if marks == [] then 0 else
    match marks[|marks| - 1]
    case Installed => 0
    case Polled(j, ok) =>
      if j != i then Misses(marks[..|marks| - 1], i)
      else if ok then 0
      else Misses(marks[..|marks| - 1], i) + 1
  }

  /** Did slot `i` answer at all since the configuration was installed? */
  predicate Answered(marks: seq<Trace>, i: nat) {
    marks != [] &&
    match marks[|marks| - 1]
    case Installed => false
    case Polled(j, ok) => (j == i && ok) || Answered(marks[..|marks| - 1], i)
  }

  /** Polls of slot `i` so far, under any configuration. */
  function PollsOf(marks: seq<Trace>, i: nat): nat {
    if marks == [] then 0
    else PollsOf(marks[..|marks| - 1], i) + (if marks[|marks| - 1].Polled? && marks[|marks| - 1].i == i then 1 else 0)
  }

  /** Did slot `i` ever answer? */
  predicate EverAnswered(marks: seq<Trace>, i: nat) {
    marks != [] && (marks[|marks| - 1] == Polled(i, true) || EverAnswered(marks[..|marks| - 1], i))
  }

  ghost predicate Sound(h: Health, marks: seq<Trace>, i: nat) {
    && h.errors == Wrap32(Misses(marks, i)) && h.polls == Wrap32(PollsOf(marks, i))
    && (h.online <==> Answered(marks, i) && Misses(marks, i) < 5)
    && (h.valid <==> EverAnswered(marks, i))
  }

  ghost predicate HealthSound(w: World) {
    forall i: nat :: i < SLOTS ==> Sound(w.m.health[i], w.marks, i)
  }

  lemma MarkStep(marks: seq<Trace>, x: Trace, i: nat)
    ensures Misses(marks + [x], i) ==
      if x.Installed? then 0 else if x.i != i then Misses(marks, i) else if x.ok then 0 else Misses(marks, i) + 1
    ensures Answered(marks + [x], i) <==> !x.Installed? && ((x.i == i && x.ok) || Answered(marks, i))
    ensures PollsOf(marks + [x], i) == PollsOf(marks, i) + if x.Polled? && x.i == i then 1 else 0
    ensures EverAnswered(marks + [x], i) <==> x == Polled(i, true) || EverAnswered(marks, i)
  {
    assert (marks + [x])[..|marks|] == marks;
  }

  lemma CommitSound(h: Health, ok: bool, misses: nat, polls: nat, answered: bool)
    requires h.errors == Wrap32(misses) && h.polls == Wrap32(polls) && (h.online <==> answered && misses < 5)
    ensures
      var g, n := Committed(h, ok), if ok then 0 else misses + 1;
      && g.errors == Wrap32(n) && g.polls == Wrap32(polls + 1)
      && (g.online <==> (ok || answered) && n < 5) && g.valid == (ok || h.valid)
  {
    WrapNext(misses);
    WrapNext(polls);
  }

  lemma WrapNext(n: nat)
    ensures Wrap32(Wrap32(n) + 1) == Wrap32(n + 1)
  {}

  lemma PollSound(h: Health, marks: seq<Trace>, j: nat, ok: bool, i: nat)
    requires Sound(h, marks, i)
    ensures Sound(if i == j then Committed(h, ok) else h, marks + [Polled(j, ok)], i)
  {
    MarkStep(marks, Polled(j, ok), i);
    if i == j { CommitSound(h, ok, Misses(marks, i), PollsOf(marks, i), Answered(marks, i)); }
  }

  lemma PollStep(w: World, e: Event, i: nat)
    requires w.configs != [] && e.Task? && w.m.pc.Send? && w.m.pc.i < SLOTS && i < SLOTS
    ensures Step(w, e).marks == w.marks + [Polled(w.m.pc.i, e.reply)]
    ensures Step(w, e).m.health[i] == if i == w.m.pc.i then Committed(w.m.health[i], e.reply) else w.m.health[i]
  {
  }

  lemma PollKeepsHealth(w: World, e: Event, i: nat)
    requires Inv(w) && HealthSound(w) && e.Task? && w.m.pc.Send? && i < SLOTS
    ensures Sound(Step(w, e).m.health[i], Step(w, e).marks, i)
  {
    PollStep(w, e, i);
    PollSound(w.m.health[i], w.marks, w.m.pc.i, e.reply, i);
  }

  ghost predicate Cleared(hs: Healths, was: Healths) {
    forall i: nat :: i < SLOTS ==> hs[i] == Health(was[i].valid, false, was[i].polls, 0)
  }

  lemma InstallStep(w: World, e: Event)
    requires w.configs != [] && w.m.pc.Apply? && e.Task?
    ensures
      var v := Step(w, e);
      && v.m == w.m.(pc := Start(w.m.pc.next), cfg := w.m.pc.next, health := v.m.health) && v.configs == w.configs
      && v.marks == w.marks + [Installed] && Cleared(v.m.health, w.m.health)
  {}

  lemma ClearedSound(h: Health, marks: seq<Trace>, i: nat)
    requires Sound(h, marks, i)
    ensures Sound(Health(h.valid, false, h.polls, 0), marks + [Installed], i)
  {
    MarkStep(marks, Installed, i);
  }

  lemma InstallKeepsHealth(w: World, e: Event, i: nat)
    requires w.configs != [] && HealthSound(w) && e.Task? && w.m.pc.Apply? && i < SLOTS
    ensures Sound(Step(w, e).m.health[i], Step(w, e).marks, i)
  {
    InstallStep(w, e);
    ClearedSound(w.m.health[i], w.marks, i);
  }

  lemma StepKeepsHealth(w: World, e: Event)
    requires Inv(w) && HealthSound(w)
    ensures HealthSound(Step(w, e))
  {
    if e.Task? && w.m.pc.Send? {
      forall i: nat | i < SLOTS { PollKeepsHealth(w, e, i); }
    } else if e.Task? && w.m.pc.Apply? {
      forall i: nat | i < SLOTS { InstallKeepsHealth(w, e, i); }
    } else {
      assert Step(w, e).m.health == w.m.health && Step(w, e).marks == w.marks;
    }
  }

  /** In every run a slot counts as online exactly when it has answered since the
      configuration was installed and missed fewer than five polls in a row since
      then, even though the error counter itself wraps; its readings count as valid
      exactly when it ever answered. */
  lemma {:induction false} OnlineMeansAnswering(c: Config, x: Ext, es: seq<Event>)
    ensures HealthSound(Run(Initial(c, x), es))
    decreases |es|
  {
    if es != [] {
      OnlineMeansAnswering(c, x, es[..|es| - 1]);
      RunKeeps(Initial(c, x), es[..|es| - 1]);
      StepKeepsHealth(Run(Initial(c, x), es[..|es| - 1]), es[|es| - 1]);
    }
  }

  /* ---- how long the task rests ---- */

  /** Whole steps of the sleep that take up `ms`. */
  function Chunks(ms: nat): nat { if ms == 0 then 0 else if ms <= 50 then 1 else 1 + Chunks(ms - 50) }

  predicate TasksOnly(es: seq<Event>) { forall k :: 0 <= k < |es| ==> es[k].Task? }

  lemma SleepStep(w: World, e: Event)
    requires w.configs != [] && w.m.pc.Sleep? && !w.m.pending && e.Task? && Chunks(w.m.pc.left) > 0
    ensures
      var v := Step(w, e);
      && v.m.pc.Sleep? && Chunks(v.m.pc.left) == Chunks(w.m.pc.left) - 1
      && v == w.(m := w.m.(pc := v.m.pc))
  {}

  /** Left alone, a sleep of so many milliseconds ends after exactly one step for every
      started 50 of them, and changes nothing else. */
  lemma {:induction false} SleepLasts(w: World, es: seq<Event>)
    requires w.configs != [] && w.m.pc.Sleep? && !w.m.pending && TasksOnly(es)
    requires |es| <= Chunks(w.m.pc.left)
    ensures
      var v := Run(w, es);
      && v.m.pc.Sleep? && Chunks(v.m.pc.left) == Chunks(w.m.pc.left) - |es|
      && v == w.(m := w.m.(pc := v.m.pc))
    decreases |es|
  {
    if es != [] {
      SleepLasts(w, es[..|es| - 1]);
      SleepStep(Run(w, es[..|es| - 1]), es[|es| - 1]);
    }
  }

  /** The sleep ends when its time is over or a request comes. */
  lemma SleepEnds(w: World, e: Event)
    requires w.configs != [] && w.m.pc.Sleep? && e.Task?
    ensures Step(w, e).m.pc.Top? <==> Chunks(w.m.pc.left) == 0 || w.m.pending
  {}

  /** Some slot is used and enabled, and every such slot has been silent for long. */
  ghost predicate LongSilent(m: Master) {
    && (exists i: nat :: i < SLOTS && m.cfg.slots[i].used && m.cfg.slots[i].enabled)
    && forall i: nat :: i < SLOTS && m.cfg.slots[i].used && m.cfg.slots[i].enabled ==>
         !m.health[i].online && m.health[i].errors >= 5
  }

  lemma SilentIsOffline(m: Master)
    ensures LongSilent(m) <==> AllOffline(m.cfg, m.health)
  {
    assert forall i: nat :: i < SLOTS ==> (Wanted(m.cfg, i) <==> m.cfg.slots[i].used && m.cfg.slots[i].enabled);
    assert forall i: nat :: i < SLOTS ==>
      (HardOffline(m.health[i]) <==> !m.health[i].online && m.health[i].errors >= 5);
    if LongSilent(m) {
      var i: nat :| i < SLOTS && m.cfg.slots[i].used && m.cfg.slots[i].enabled;
      assert Wanted(m.cfg, i);
    }
  }

  /** Between cycles: 50 ms while the bus is off or not open; 30 s when every enabled
      slot has missed five polls and none is online; else the set period, or 5 s. */
  lemma RestsAsConfigured(w: World, e: Event)
    requires w.configs != [] && w.m.pc.Rest? && e.Task?
    ensures
      var (m, v) := (w.m, Step(w, e).m);
      && v.pc.Sleep?
      && (!m.cfg.bus || !m.stackUp ==> v.pc.left == 50)
      && (m.cfg.bus && m.stackUp ==>
            if LongSilent(m) then v.pc.left == 30000
            else if m.cfg.periodMs > 0 then v.pc.left == m.cfg.periodMs
            else v.pc.left == 5000)
  {
    SilentIsOffline(w.m);
  }

  /* ---- one poll cycle ---- */

  /** The rest of a cycle from slot `i` on, with no request in between; the task finds
      `es[i]` on its steps at slot `i`. */
  function Sweep(w: World, i: nat, es: seq<Event>): World
    requires w.configs != [] && i <= SLOTS < |es|
    decreases SLOTS - i
  {
    if i == SLOTS then Step(w, es[i])
    else if w.m.cfg.slots[i].used && w.m.cfg.slots[i].enabled then
      Sweep(Step(Step(w, es[i]), es[i]), i + 1, es)
    else
      Sweep(Step(w, es[i]), i + 1, es)
  }

  /** The used and enabled slots from `i` on, in the order of the table. */
  function Asked(r: Runtime, i: nat): seq<u8>
    requires i <= SLOTS
    decreases SLOTS - i
  {
    if i == SLOTS then []
    else (if r.slots[i].used && r.slots[i].enabled then [r.slots[i].id] else []) + Asked(r, i + 1)
  }

  function Ids(ps: seq<BusPoll>): seq<u8> {
    seq(|ps|, k requires 0 <= k < |ps| => ps[k].id)
  }

  /** One slot's turn. */
  ghost predicate TookTurn(w: World, i: nat, v: World)
    requires i < SLOTS
  {
    var s := w.m.cfg.slots[i];
    && v.configs == w.configs && v.m.pc == Poll(i + 1) && !v.m.pending
    && v.m.cfg == w.m.cfg && v.m.cycles == w.m.cycles
    && Ids(v.sent) == Ids(w.sent) + (if s.used && s.enabled then [s.id] else [])
  }

  lemma AskedSlot(w: World, i: nat, e: Event)
    requires w.configs != [] && i < SLOTS && w.m.pc == Poll(i) && !w.m.pending && e.Task?
    requires w.m.cfg.slots[i].used && w.m.cfg.slots[i].enabled
    ensures Step(w, e) == w.(m := w.m.(pc := Send(i)))
    ensures TookTurn(w, i, Step(Step(w, e), e))
  {
    var v := w.(m := w.m.(pc := Send(i)));
    assert Step(w, e) == v;
    assert Step(v, e).sent == w.sent + [BusPoll(w.m.link, w.m.cfg.slots[i].id)];
  }

  lemma SkippedSlot(w: World, i: nat, e: Event)
    requires w.configs != [] && i < SLOTS && w.m.pc == Poll(i) && !w.m.pending && e.Task?
    requires !(w.m.cfg.slots[i].used && w.m.cfg.slots[i].enabled)
    ensures TookTurn(w, i, Step(w, e))
  {}

  /** An undisturbed cycle polls every used and enabled slot once, in the order of the
      table, and counts as one cycle. */
  ghost predicate FullCycle(w: World, i: nat, v: World)
    requires i <= SLOTS
  {
    && v.m.pc == Rest && Ids(v.sent) == Ids(w.sent) + Asked(w.m.cfg, i)
    && v.m.cycles == Wrap32(w.m.cycles + 1) && v.m.cfg == w.m.cfg
  }

  lemma TurnThenRest(w: World, i: nat, u: World, v: World)
    requires i < SLOTS && TookTurn(w, i, u) && FullCycle(u, i + 1, v)
    ensures FullCycle(w, i, v)
  {}

  lemma {:induction false} CyclePollsEverySlot(w: World, i: nat, es: seq<Event>)
    requires w.configs != [] && i <= SLOTS < |es| && TasksOnly(es) && w.m.pc == Poll(i) && !w.m.pending
    ensures FullCycle(w, i, Sweep(w, i, es))
    decreases SLOTS - i
  {
    if i == SLOTS {
      assert Asked(w.m.cfg, i) == [];
    } else if w.m.cfg.slots[i].used && w.m.cfg.slots[i].enabled {
      AskedSlot(w, i, es[i]);
      var u := Step(Step(w, es[i]), es[i]);
      CyclePollsEverySlot(u, i + 1, es);
      TurnThenRest(w, i, u, Sweep(u, i + 1, es));
    } else {
      SkippedSlot(w, i, es[i]);
      var u := Step(w, es[i]);
      CyclePollsEverySlot(u, i + 1, es);
      TurnThenRest(w, i, u, Sweep(u, i + 1, es));
    }
  }

  /** Before a cycle: paused, the task only sleeps 50 ms; otherwise, with the bus on and
      open, it starts with the first slot of the table, and else rests. */
  lemma CycleStartsAtTheTop(w: World, e: Event)
    requires w.configs != [] && w.m.pc.Gate? && e.Task?
    ensures Step(w, e) == w.(m := w.m.(pc := Step(w, e).m.pc))
    ensures
      Step(w, e).m.pc
      == if e.paused then Sleep(50) else if w.m.stackUp && w.m.cfg.bus then Poll(0) else Rest
  {}

  /* ---- one reload from end to end ---- */

  /** The first three steps: see the request, take it down, and only then stop the bus. */
  lemma ReloadBegins(w: World, es: seq<Event>)
    requires w.configs != [] && w.m.pc.Top? && w.m.pending && |es| == 3 && TasksOnly(es)
    ensures
      Step(Step(Step(w, es[0]), es[1]), es[2]) == w.(m := w.m.(pending := false, stackUp := false, pc := Load))
  {
    var v := Step(w, es[0]);
    assert v == w.(m := w.m.(pc := Clear));
    assert Step(v, es[1]) == w.(m := w.m.(pending := false, pc := Stop));
  }

  lemma LoadStep(w: World, e: Event)
    requires w.configs != [] && w.m.pc.Load? && e.Task?
    ensures
      var v := Step(w, e);
      && v.m.pc.Apply? && v.m == w.m.(pc := v.m.pc) && v.configs == w.configs
      && (e.readOk ==> RunsOn(v.m.pc.next, w.configs[Latest(w)]))
      && (!e.readOk ==> RunsOnOlder(v.m.pc.next, w.ext))
  {
    FromConfigCopies(w.configs[Latest(w)]);
    FromExtCopies(w.ext);
  }

  lemma StartStep(w: World, e: Event)
    requires w.configs != [] && w.m.pc.Start? && w.m.cfg == w.m.pc.next && e.Task?
    ensures
      var v := Step(w, e);
      && v.m == w.m.(pc := if w.m.created then Gate else Create, stackUp := v.m.stackUp, link := v.m.link)
      && v.configs == w.configs && (v.m.stackUp <==> w.m.cfg.bus && e.startOk)
      && (v.m.stackUp ==> OpenedAt(v.m.link, w.m.cfg.baud, w.m.cfg.parity))
  {
    LinkOpens(w.m.cfg);
  }

  /** What the last three leave: the configuration that was committed by then, or the older
      record, all slots offline with their last readings, and the bus open exactly if it
      is on and could be started. */
  ghost predicate Reloaded(w: World, readOk: bool, startOk: bool, v: World)
    requires w.configs != []
  {
    && v.m.pc == Gate && v.m.pending == w.m.pending && v.configs == w.configs
    && (readOk ==> RunsOn(v.m.cfg, w.configs[Latest(w)])) && (!readOk ==> RunsOnOlder(v.m.cfg, w.ext))
    && (v.m.stackUp <==> v.m.cfg.bus && startOk)
    && (v.m.stackUp ==> OpenedAt(v.m.link, v.m.cfg.baud, v.m.cfg.parity))
    && Cleared(v.m.health, w.m.health)
  }

  lemma ReloadEnds(w: World, es: seq<Event>)
    requires w.configs != [] && w.m.pc.Load? && w.m.created && |es| == 3 && TasksOnly(es)
    ensures Reloaded(w, es[0].readOk, es[2].startOk, Step(Step(Step(w, es[0]), es[1]), es[2]))
  {
    LoadStep(w, es[0]);
    InstallStep(Step(w, es[0]), es[1]);
    StartStep(Step(Step(w, es[0]), es[1]), es[2]);
  }

  /** Six steps of the task, undisturbed, take a request down and end with the newest
      configuration, or the older record if that cannot be read, in every field, all slots
      offline with no errors and their last readings, and the bus open at its rate exactly
      if it is on and could be started. */
  lemma ReloadRunsThrough(w: World, es: seq<Event>, fs: seq<Event>)
    requires w.configs != [] && w.m.pc.Top? && w.m.pending && w.m.created
    requires |es| == |fs| == 3 && TasksOnly(es) && TasksOnly(fs)
    ensures
      var u := Step(Step(Step(w, es[0]), es[1]), es[2]);
      var v := Step(Step(Step(u, fs[0]), fs[1]), fs[2]);
      Reloaded(w.(m := w.m.(pending := false)), fs[0].readOk, fs[2].startOk, v)
  {
    ReloadBegins(w, es);
    var u := w.(m := w.m.(pending := false, stackUp := false, pc := Load));
    ReloadEnds(u, fs);
  }

  /** A request is taken once the task is marked as started. */
  lemma RequestsAndMarks(m: Master)
    ensures After(m, Raised) == m.(pending := m.pending || m.started)
    ensures After(m, Started) == m.(started := m.started || m.created)
  {}
}
