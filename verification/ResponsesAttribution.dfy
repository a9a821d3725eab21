/** What the Responses stream says, told from the chunks alone: which item every piece of reasoning,
    text and arguments belongs to, found by looking back over the pieces, with no table of open items. */
module ResponsesAttribution {
  import opened Wrappers
  import opened Sequences
  import opened ChatChunks
  import opened ResponsesEvents
  import opened ResponsesBridge
  import opened ToolSegments

  /** One piece of a chunk, in the order in which the bridge looks at them. */
  datatype Atom = Think(text: string) | Say(channel: Channel, text: string) | Call(fragment: Fragment)

  function ToolAtoms(ds: seq<ToolDelta>): seq<Atom> {
    if ds == [] then []
    else
      var front, d := ToolAtoms(ds[..|ds| - 1]), ds[|ds| - 1];
      if d.index.None? then front else front + [Call(Fragment(d.index.value, d.id, d.name, d.args))]
  }

  function ThinkAtoms(c: Chunk, o: Options): seq<Atom>
    requires c.Choice?
  {
    if o.emitReasoning && c.reasoning != "" then [Think(c.reasoning)] else []
  }

  function SayAtoms(channel: Channel, text: string): seq<Atom> {
    if text != "" then [Say(channel, text)] else []
  }

  function ChunkAtoms(c: Chunk, o: Options): seq<Atom> {
    if !c.Choice? then []
    else ThinkAtoms(c, o) + SayAtoms(OutputText, c.content) + SayAtoms(RefusalText, c.refusal) + ToolAtoms(c.tools)
  }

  function Atoms(chunks: seq<Chunk>, o: Options): seq<Atom> {
    if chunks == [] then [] else Atoms(chunks[..|chunks| - 1], o) + ChunkAtoms(chunks[|chunks| - 1], o)
  }

  // ---- The reference -----------------------------------------------------------------------------------

  /** The last piece that is not reasoning. */
  function LastSpoken(atoms: seq<Atom>): Option<Atom> {
    if atoms == [] then None
    else if atoms[|atoms| - 1].Think? then LastSpoken(atoms[..|atoms| - 1])
    else Some(atoms[|atoms| - 1])
  }

  /** The fragments since text was last spoken. */
  function CallRun(atoms: seq<Atom>): seq<Fragment> {
    if atoms == [] then []
    else
      var last := atoms[|atoms| - 1];
      if last.Say? then []
      else if last.Think? then CallRun(atoms[..|atoms| - 1])
      else CallRun(atoms[..|atoms| - 1]) + [last.fragment]
  }

  /** A piece opens an item: the first reasoning when nothing came before; text after anything but the
      same kind of text; a fragment of a call not seen since text was last spoken. */
  predicate Opens(before: seq<Atom>, a: Atom) {
    match a
    case Think(_) => before == []
    case Say(channel, _) =>
      var last := LastSpoken(before);
      !(last.Some? && last.value.Say? && last.value.channel == channel)
    case Call(f) => KeyAfter(CallRun(before), f) !in Keys(CallRun(before))
  }

  /** How many items the pieces open. */
  function ItemCount(atoms: seq<Atom>): nat {
    if atoms == [] then 0
    else
      var before, a := atoms[..|atoms| - 1], atoms[|atoms| - 1];
      ItemCount(before) + (if Opens(before, a) then 1 else 0)
  }

  /** The item most recently opened for a call. */
  function OpenedAt(atoms: seq<Atom>, key: Key): nat {
    if atoms == [] then 0
    else
      var before, a := atoms[..|atoms| - 1], atoms[|atoms| - 1];
      if a.Call? && KeyAfter(CallRun(before), a.fragment) == key && Opens(before, a) then ItemCount(before)
      else OpenedAt(before, key)
  }

  /** The item a piece belongs to; reasoning after text or calls belongs to none. */
  function Owner(before: seq<Atom>, a: Atom): Option<nat> {
    if Opens(before, a) then Some(ItemCount(before))
    else match a
         case Think(_) => if LastSpoken(before).None? then Some(0) else None
         case Say(_, _) => if ItemCount(before) == 0 then None else Some(ItemCount(before) - 1)
         case Call(f) => Some(OpenedAt(before, KeyAfter(CallRun(before), f)))
  }

  /** What a client is told. A minted call id is not compared. */
  datatype Fact =
    | Reasoning(oi: nat)
    | Message(oi: nat)
    | FunctionCall(oi: nat, upstreamId: string, name: string)
    | Said(oi: nat, channel: Channel, text: string)

  function OpeningFacts(before: seq<Atom>, a: Atom): seq<Fact> {
    if !Opens(before, a) then []
    else match a
         case Think(_) => [Reasoning(ItemCount(before))]
         case Say(_, _) => [Message(ItemCount(before))]
         case Call(f) => [FunctionCall(ItemCount(before), f.id, f.name)]
  }

  function SaidFacts(before: seq<Atom>, a: Atom): seq<Fact> {
    match Owner(before, a)
    case None => []
    case Some(oi) =>
      match a
      case Think(text) => [Said(oi, ReasoningText, text)]
      case Say(channel, text) => [Said(oi, channel, text)]
      case Call(f) => if f.args == "" then [] else [Said(oi, Arguments, f.args)]
  }

  /** Everything the pieces must come out as, in order. */
  function Expected(atoms: seq<Atom>): seq<Fact> {
    if atoms == [] then []
    else
      var before, a := atoms[..|atoms| - 1], atoms[|atoms| - 1];
      Expected(before) + OpeningFacts(before, a) + SaidFacts(before, a)
  }

  // ---- What was told -------------------------------------------------------------------------------------

  function ShellFact(oi: nat, shell: Shell): Fact {
    match shell
    case ReasoningShell => Reasoning(oi)
    case MessageShell => Message(oi)
    case CallShell(callId, name) => FunctionCall(oi, if callId.Given? then callId.id else "", name)
  }

  function FactsOf(p: Payload): seq<Fact> {
    if p.ItemAdded? then [ShellFact(p.oi, p.shell)]
    else if p.Delta? then [Said(p.oi, p.channel, p.text)]
    else []
  }

  function EventFact(e: Event): seq<Fact> {
    FactsOf(e.payload)
  }

  function EventFacts(events: seq<Event>): seq<Fact> {
    FlatMap(EventFact, events)
  }

  function Told(trace: seq<Yield>): seq<Fact> {
    EventFacts(EventsOf(trace))
  }

  lemma ToldDelivered(m: Machine, b: Batch)
    ensures Told(Deliver(m, b).trace) == Told(m.trace) + EventFacts(b.events)
  {
    assert EventsOf(m.trace + Suspended(b.events, b.st)) == EventsOf(m.trace) + b.events;
    FlatMapAppend(EventFact, EventsOf(m.trace), b.events);
  }

  lemma OneEvent(e: Event)
    ensures EventFacts([e]) == FactsOf(e.payload)
  {
    FlatMapOne(EventFact, e);
  }

  /** Delivering one event tells what it says. */
  lemma ToldOne(m: Machine, st: State, p: Payload)
    ensures Told(Deliver(m, Bump(st, [p])).trace) == Told(m.trace) + FactsOf(p)
  {
    var b := Bump(st, [p]);
    assert b.events == [Event(st.seqNo, p)];
    ToldDelivered(m, b);
    OneEvent(Event(st.seqNo, p));
  }

  /** Delivering an event and a silent one. */
  lemma ToldTwo(m: Machine, st: State, p: Payload, q: Payload)
    requires FactsOf(q) == []
    ensures Told(Deliver(m, Bump(st, [p, q])).trace) == Told(m.trace) + FactsOf(p)
  {
    var b, e := Bump(st, [p, q]), Event(st.seqNo, p);
    assert b.events == [e] + [Event(st.seqNo + 1, q)];
    ToldDelivered(m, b);
    FlatMapSnoc(EventFact, [e], Event(st.seqNo + 1, q));
    OneEvent(e);
    assert FactsOf(p) + [] == FactsOf(p);
  }

  /** The events of a batch announce and say nothing. */
  predicate Silent(events: seq<Event>) {
    forall k :: 0 <= k < |events| ==> FactsOf(events[k].payload) == []
  }

  lemma {:induction false} SilentEvents(events: seq<Event>)
    requires Silent(events)
    ensures EventFacts(events) == []
  {
    if events == [] {
    } else {
      SilentEvents(events[..|events| - 1]);
    }
  }

  lemma SilentDelivery(m: Machine, b: Batch)
    requires Silent(b.events)
    ensures Told(Deliver(m, b).trace) == Told(m.trace)
  {
    ToldDelivered(m, b);
    SilentEvents(b.events);
  }

  // ---- The relation between the pieces so far and the state ------------------------------------------------

  /** A call is open for every index of the current run, and knows its id and its item. */
  ghost predicate CallsAgree(tools: map<int, OpenCall>, atoms: seq<Atom>) {
    var run := CallRun(atoms);
    && (forall idx :: idx in tools <==> Occurs(run, idx))
    && forall idx :: idx in tools ==>
         && tools[idx].upstreamId == LatestId(run, idx)
         && tools[idx].oi == OpenedAt(atoms, Key(idx, Generation(run, idx)))
  }

  predicate TextAgrees(text: Option<OpenText>, atoms: seq<Atom>) {
    var last := LastSpoken(atoms);
    if last.Some? && last.value.Say?
    then text.Some? && text.value.channel == last.value.channel && text.value.oi + 1 == ItemCount(atoms)
    else text.None?
  }

  predicate ReasoningAgrees(reasoning: Option<OpenText>, atoms: seq<Atom>) {
    if atoms != [] && LastSpoken(atoms).None?
    then reasoning.Some? && reasoning.value.oi == 0 && reasoning.value.channel == ReasoningText
    else reasoning.None?
  }

  ghost predicate StateAgrees(st: State, atoms: seq<Atom>) {
    && st.nextOi == ItemCount(atoms)
    && ReasoningAgrees(st.reasoning, atoms)
    && TextAgrees(st.text, atoms)
    && CallsAgree(st.tools, atoms)
  }

  ghost predicate Attributed(m: Machine, atoms: seq<Atom>) {
    StateAgrees(m.st, atoms) && Told(m.trace) == Expected(atoms)
  }

  // ---- One more piece ----------------------------------------------------------------------------------------

  lemma AtomSnoc(atoms: seq<Atom>, a: Atom)
    ensures Expected(atoms + [a]) == Expected(atoms) + OpeningFacts(atoms, a) + SaidFacts(atoms, a)
    ensures ItemCount(atoms + [a]) == ItemCount(atoms) + (if Opens(atoms, a) then 1 else 0)
    ensures LastSpoken(atoms + [a]) == if a.Think? then LastSpoken(atoms) else Some(a)
  {
    assert (atoms + [a])[..|atoms|] == atoms;
  }

  lemma RunSnoc(atoms: seq<Atom>, a: Atom)
    ensures CallRun(atoms + [a])
            == if a.Say? then [] else if a.Think? then CallRun(atoms) else CallRun(atoms) + [a.fragment]
    ensures forall key :: OpenedAt(atoms + [a], key)
                          == if a.Call? && KeyAfter(CallRun(atoms), a.fragment) == key && Opens(atoms, a)
                             then ItemCount(atoms)
                             else OpenedAt(atoms, key)
  {
    assert (atoms + [a])[..|atoms|] == atoms;
  }

  /** There is a run of fragments exactly while the last thing spoken is a fragment. */
  lemma {:induction false} RunMeansCall(atoms: seq<Atom>)
    ensures CallRun(atoms) != [] <==> LastSpoken(atoms).Some? && LastSpoken(atoms).value.Call?
    ensures LastSpoken(atoms).Some? ==> !LastSpoken(atoms).value.Think?
    ensures ItemCount(atoms) == 0 <==> atoms == []
  {
    if atoms == [] {
    } else {
      RunMeansCall(atoms[..|atoms| - 1]);
    }
  }

  lemma NoRunNoCalls(tools: map<int, OpenCall>, atoms: seq<Atom>)
    requires CallsAgree(tools, atoms)
    ensures tools == map[] <==> CallRun(atoms) == []
  {
    if CallRun(atoms) == [] {
      assert forall idx :: idx !in tools;
    } else {
      assert Occurs(CallRun(atoms), CallRun(atoms)[0].index);
    }
  }

  lemma ThinkKeepsCalls(tools: map<int, OpenCall>, atoms: seq<Atom>, text: string)
    requires CallsAgree(tools, atoms)
    ensures CallsAgree(tools, atoms + [Think(text)])
  {
    RunSnoc(atoms, Think(text));
  }

  lemma SayEndsCalls(atoms: seq<Atom>, channel: Channel, text: string)
    ensures CallsAgree(map[], atoms + [Say(channel, text)])
  {
    RunSnoc(atoms, Say(channel, text));
  }

  // ---- Reasoning -----------------------------------------------------------------------------------------------

  lemma OpenReasoningTells(m: Machine)
    ensures Told(OpenReasoning(m).trace) == Told(m.trace) + [Reasoning(m.st.nextOi)]
  {
    var r := OpenText(m.st.minted, m.st.nextOi, ReasoningText, []);
    var st1 := m.st.(reasoning := Some(r), nextOi := m.st.nextOi + 1, minted := m.st.minted + 1);
    ToldOne(m, st1, ItemAdded(r.oi, r.id, ReasoningShell));
    var m1 := Deliver(m, Bump(st1, [ItemAdded(r.oi, r.id, ReasoningShell)]));
    ToldOne(m1, m1.st, PartAdded(r.oi, r.id, ReasoningText));
    assert Told(m1.trace) + [] == Told(m1.trace);
  }

  /** What reasoning does to the state, when any may still come and when it comes too late. */
  lemma ReasoningEffect(m: Machine, piece: string, atoms: seq<Atom>)
    requires Attributed(m, atoms)
    ensures var m', spoken := OnReasoning(m, piece), LastSpoken(atoms).Some?;
            && (spoken ==> m' == m)
            && (!spoken ==> m'.st.reasoning.Some? && m'.st.reasoning.value.oi == 0
                            && m'.st.reasoning.value.channel == ReasoningText
                            && m'.st.nextOi == (if atoms == [] then 1 else m.st.nextOi)
                            && m'.st.text == m.st.text && m'.st.tools == m.st.tools
                            && Told(m'.trace) == Told(m.trace) + (if atoms == [] then [Reasoning(0)] else [])
                               + [Said(0, ReasoningText, piece)])
  {
    RunMeansCall(atoms);
    NoRunNoCalls(m.st.tools, atoms);
    if LastSpoken(atoms).None? {
      var m1 := if NothingOpen(m.st) then OpenReasoning(m) else m;
      if atoms == [] { OpenReasoningTells(m); }
      var r := m1.st.reasoning.value;
      ToldOne(m1, m1.st.(reasoning := Some(r.(buf := r.buf + [piece]))), Delta(r.oi, r.id, ReasoningText, piece));
      assert Told(m.trace) + [] == Told(m.trace);
    }
  }

  lemma OnReasoningAttributed(m: Machine, piece: string, atoms: seq<Atom>)
    requires Attributed(m, atoms)
    ensures Attributed(OnReasoning(m, piece), atoms + [Think(piece)])
  {
    ReasoningEffect(m, piece, atoms);
    AtomSnoc(atoms, Think(piece));
    RunMeansCall(atoms);
    ThinkKeepsCalls(m.st.tools, atoms, piece);
    assert Expected(atoms) + [] + [] == Expected(atoms);
  }

  // ---- Text -------------------------------------------------------------------------------------------------------

  lemma {:induction false} CloseCallsSilent(st: State, o: Options, order: seq<int>)
    ensures Silent(CloseCalls(st, o, order).events)
    ensures var st' := CloseCalls(st, o, order).st;
            && st' == st.(seqNo := st'.seqNo, output := st'.output, tools := st'.tools)
            && forall i :: i in st'.tools <==> i in st.tools && i !in order
  {
    if order == [] {
    } else {
      CloseCallsSilent(st, o, order[..|order| - 1]);
      assert order == order[..|order| - 1] + [order[|order| - 1]];
    }
  }

  /** Every open call is in the order of closing. */
  predicate Listed(st: State) {
    forall i :: i in st.tools ==> i in st.toolOrder
  }

  lemma CloseReasoningEffect(m: Machine, o: Options)
    requires Listed(m.st)
    ensures var m' := Deliver(m, CloseReasoning(m.st, o));
            && Told(m'.trace) == Told(m.trace) && Listed(m'.st)
            && m'.st.reasoning.None? && m'.st.text == m.st.text && m'.st.nextOi == m.st.nextOi
  {
    SilentDelivery(m, CloseReasoning(m.st, o));
  }

  lemma CloseAllCallsEffect(m: Machine, o: Options)
    requires Listed(m.st)
    ensures var m' := Deliver(m, CloseAllCalls(m.st, o));
            && Told(m'.trace) == Told(m.trace) && m'.st.tools == map[]
            && m'.st.reasoning == m.st.reasoning && m'.st.text == m.st.text && m'.st.nextOi == m.st.nextOi
  {
    CloseCallsSilent(m.st, o, m.st.toolOrder);
    SilentDelivery(m, CloseAllCalls(m.st, o));
    var tools := CloseAllCalls(m.st, o).st.tools;
    assert forall i :: i !in tools;
  }

  lemma CloseOthersEffect(m: Machine, o: Options)
    requires Listed(m.st)
    ensures var m' := CloseOthers(m, o);
            && Told(m'.trace) == Told(m.trace)
            && m'.st.reasoning.None? && m'.st.tools == map[] && m'.st.text == m.st.text && m'.st.nextOi == m.st.nextOi
  {
    CloseReasoningEffect(m, o);
    CloseAllCallsEffect(Deliver(m, CloseReasoning(m.st, o)), o);
  }

  lemma OpenMessageEffect(m: Machine, channel: Channel)
    ensures var m' := Deliver(m, OpenMessage(m.st, channel));
            && Told(m'.trace) == Told(m.trace) + [Message(m.st.nextOi)]
            && m'.st == m.st.(text := m'.st.text, nextOi := m.st.nextOi + 1,
                              minted := m'.st.minted, seqNo := m'.st.seqNo)
            && m'.st.text.Some? && m'.st.text.value.channel == channel && m'.st.text.value.oi == m.st.nextOi
  {
    var t := OpenText(m.st.minted, m.st.nextOi, channel, []);
    ToldTwo(m, m.st.(text := Some(t), nextOi := m.st.nextOi + 1, minted := m.st.minted + 1),
            ItemAdded(t.oi, t.id, MessageShell), PartAdded(t.oi, t.id, channel));
  }

  lemma HaveMessageEffect(m: Machine, o: Options, channel: Channel)
    ensures var m', opens := HaveMessage(m, o, channel), m.st.text.None? || m.st.text.value.channel != channel;
            && Told(m'.trace) == Told(m.trace) + (if opens then [Message(m.st.nextOi)] else [])
            && m'.st.text.Some? && m'.st.text.value.channel == channel
            && (if opens then m'.st.text.value.oi == m.st.nextOi && m'.st.nextOi == m.st.nextOi + 1 else m'.st == m.st)
            && m'.st.reasoning == m.st.reasoning && m'.st.tools == m.st.tools
  {
    if m.st.text.None? {
      OpenMessageEffect(m, channel);
    } else if m.st.text.value.channel != channel {
      SilentDelivery(m, CloseText(m.st, o));
      OpenMessageEffect(Deliver(m, CloseText(m.st, o)), channel);
    } else {
      assert Told(m.trace) + [] == Told(m.trace);
    }
  }

  lemma AppendTextEffect(m: Machine, piece: string)
    requires m.st.text.Some?
    ensures var m' := AppendText(m, piece);
            && Told(m'.trace) == Told(m.trace) + [Said(m.st.text.value.oi, m.st.text.value.channel, piece)]
            && m'.st.text.Some? && m'.st.text.value.oi == m.st.text.value.oi
               && m'.st.text.value.channel == m.st.text.value.channel
            && m'.st == m.st.(text := m'.st.text, seqNo := m'.st.seqNo)
  {
    var t := m.st.text.value;
    ToldOne(m, m.st.(text := Some(t.(buf := t.buf + [piece]))), Delta(t.oi, t.id, t.channel, piece));
  }

  lemma OnMessageAttributed(m: Machine, o: Options, channel: Channel, piece: string, atoms: seq<Atom>)
    requires Attributed(m, atoms) && Listed(m.st)
    ensures Attributed(OnMessage(m, o, channel, piece), atoms + [Say(channel, piece)])
  {
    var m1 := CloseOthers(m, o);
    var m2 := HaveMessage(m1, o, channel);
    CloseOthersEffect(m, o);
    HaveMessageEffect(m1, o, channel);
    AppendTextEffect(m2, piece);
    AtomSnoc(atoms, Say(channel, piece));
    RunMeansCall(atoms);
    SayEndsCalls(atoms, channel, piece);
  }

  // ---- Calls --------------------------------------------------------------------------------------------------------

  function FragmentOf(idx: int, d: ToolDelta): Fragment {
    Fragment(idx, d.id, d.name, d.args)
  }

  /** The bridge opens a call exactly when the reference does. */
  lemma NewCallOpens(tools: map<int, OpenCall>, atoms: seq<Atom>, idx: int, d: ToolDelta)
    requires CallsAgree(tools, atoms)
    ensures idx !in tools || IsNewCall(tools, idx, d.id) <==> Opens(atoms, Call(FragmentOf(idx, d)))
  {
    OpensCall(CallRun(atoms), FragmentOf(idx, d));
  }

  lemma CloseCallSilent(m: Machine, o: Options, idx: int)
    ensures var m' := if idx in m.st.tools then Deliver(m, CloseCall(m.st, o, idx)) else m;
            && Told(m'.trace) == Told(m.trace)
            && m'.st == m.st.(seqNo := m'.st.seqNo, output := m'.st.output, tools := m.st.tools - {idx})
  {
    if idx in m.st.tools { SilentDelivery(m, CloseCall(m.st, o, idx)); }
    else { assert m.st.tools - {idx} == m.st.tools; }
  }

  lemma CloseTextsSilent(m: Machine, o: Options)
    ensures var m1 := Deliver(m, CloseReasoning(m.st, o));
            var m2 := Deliver(m1, CloseText(m1.st, o));
            && Told(m2.trace) == Told(m.trace)
            && m2.st == m.st.(seqNo := m2.st.seqNo, output := m2.st.output, reasoning := None, text := None)
  {
    SilentDelivery(m, CloseReasoning(m.st, o));
    var m1 := Deliver(m, CloseReasoning(m.st, o));
    SilentDelivery(m1, CloseText(m1.st, o));
  }

  lemma OpenNewCallEffect(m: Machine, idx: int, d: ToolDelta)
    ensures var m' := OpenNewCall(m, idx, d);
            && Told(m'.trace) == Told(m.trace) + [FunctionCall(m.st.nextOi, d.id, d.name)]
            && idx in m'.st.tools && m'.st.tools == m.st.tools[idx := m'.st.tools[idx]]
            && m'.st.tools[idx].oi == m.st.nextOi && m'.st.tools[idx].upstreamId == d.id
            && m'.st.nextOi == m.st.nextOi + 1 && m'.st.text == m.st.text && m'.st.reasoning == m.st.reasoning
  {
    var callId := if d.id != "" then Given(d.id) else Minted(m.st.minted + 1);
    var t := OpenCall(m.st.minted, m.st.nextOi, callId, d.id, d.name, []);
    ToldOne(m, m.st.(tools := m.st.tools[idx := t], toolOrder := m.st.toolOrder + [idx],
                     nextOi := m.st.nextOi + 1, minted := m.st.minted + 2),
            ItemAdded(t.oi, t.id, CallShell(callId, d.name)));
  }

  lemma AppendArgsEffect(m: Machine, idx: int, args: string)
    requires idx in m.st.tools
    ensures var m' := AppendArgs(m, idx, args);
            && Told(m'.trace) == Told(m.trace)
               + (if args == "" then [] else [Said(m.st.tools[idx].oi, Arguments, args)])
            && idx in m'.st.tools && m'.st.tools == m.st.tools[idx := m'.st.tools[idx]]
            && m'.st.tools[idx].oi == m.st.tools[idx].oi && m'.st.tools[idx].upstreamId == m.st.tools[idx].upstreamId
            && m'.st.nextOi == m.st.nextOi && m'.st.text == m.st.text && m'.st.reasoning == m.st.reasoning
  {
    if args == "" {
      assert Told(m.trace) + [] == Told(m.trace);
      assert m.st.tools == m.st.tools[idx := m.st.tools[idx]];
    } else {
      var t := m.st.tools[idx];
      ToldOne(m, m.st.(tools := m.st.tools[idx := t.(buf := t.buf + [args])]), Delta(t.oi, t.id, Arguments, args));
    }
  }

  /** A fragment changes nothing for the calls of other indices. */
  lemma OtherCallsAgree(tools: map<int, OpenCall>, atoms: seq<Atom>, f: Fragment, other: int)
    requires CallsAgree(tools, atoms) && other in tools && other != f.index
    ensures var run := CallRun(atoms + [Call(f)]);
            && tools[other].upstreamId == LatestId(run, other)
            && tools[other].oi == OpenedAt(atoms + [Call(f)], Key(other, Generation(run, other)))
  {
    RunSnoc(atoms, Call(f));
    SnocHistory(CallRun(atoms), f, other);
  }

  lemma RunOccurs(atoms: seq<Atom>, f: Fragment, index: int)
    ensures Occurs(CallRun(atoms + [Call(f)]), index) <==> Occurs(CallRun(atoms), index) || f.index == index
  {
    RunSnoc(atoms, Call(f));
    Snoc(CallRun(atoms), f);
  }

  /** A call knows its id and its item. */
  predicate CallAgrees(t: OpenCall, atoms: seq<Atom>, idx: int) {
    var run := CallRun(atoms);
    t.upstreamId == LatestId(run, idx) && t.oi == OpenedAt(atoms, Key(idx, Generation(run, idx)))
  }

  lemma CallReplaced(tools: map<int, OpenCall>, atoms: seq<Atom>, f: Fragment, t: OpenCall)
    requires CallsAgree(tools, atoms) && CallAgrees(t, atoms + [Call(f)], f.index)
    ensures CallsAgree(tools[f.index := t], atoms + [Call(f)])
  {
    var tools', after := tools[f.index := t], atoms + [Call(f)];
    forall idx ensures idx in tools' <==> Occurs(CallRun(after), idx) { RunOccurs(atoms, f, idx); }
    forall idx | idx in tools' ensures CallAgrees(tools'[idx], after, idx) {
      if idx != f.index { OtherCallsAgree(tools, atoms, f, idx); }
    }
  }

  lemma OpenedCallKnows(tools: map<int, OpenCall>, atoms: seq<Atom>, f: Fragment, t: OpenCall)
    requires CallsAgree(tools, atoms) && Opens(atoms, Call(f)) && t.upstreamId == f.id && t.oi == ItemCount(atoms)
    ensures CallAgrees(t, atoms + [Call(f)], f.index)
  {
    var run := CallRun(atoms);
    RunSnoc(atoms, Call(f));
    SnocHistory(run, f, f.index);
    OpensCall(run, f);
    if f.id == "" { NoHistory(run, f.index); }
  }

  lemma OpenedCallAgrees(tools: map<int, OpenCall>, atoms: seq<Atom>, f: Fragment, t: OpenCall)
    requires CallsAgree(tools, atoms) && Opens(atoms, Call(f)) && t.upstreamId == f.id && t.oi == ItemCount(atoms)
    ensures CallsAgree(tools[f.index := t], atoms + [Call(f)])
  {
    OpenedCallKnows(tools, atoms, f, t);
    CallReplaced(tools, atoms, f, t);
  }

  lemma LearnedCallAgrees(tools: map<int, OpenCall>, atoms: seq<Atom>, f: Fragment, t: OpenCall)
    requires CallsAgree(tools, atoms) && f.index in tools && !Opens(atoms, Call(f)) && t.oi == tools[f.index].oi
    requires t.upstreamId == if tools[f.index].upstreamId == "" then f.id else tools[f.index].upstreamId
    ensures CallsAgree(tools[f.index := t], atoms + [Call(f)])
    ensures Owner(atoms, Call(f)) == Some(t.oi)
  {
    var run := CallRun(atoms);
    RunSnoc(atoms, Call(f));
    SnocHistory(run, f, f.index);
    OpensCall(run, f);
    CallReplaced(tools, atoms, f, t);
  }

  lemma CallsWithoutIndex(tools: map<int, OpenCall>, idx: int, t: OpenCall)
    ensures (tools - {idx})[idx := t] == tools[idx := t]
  {
  }

  /** What a fragment that opens a call does. */
  lemma NewCallEffect(m: Machine, o: Options, idx: int, d: ToolDelta)
    requires d.index == Some(idx) && (idx !in m.st.tools || IsNewCall(m.st.tools, idx, d.id))
    ensures var m' := OnTool(m, o, d);
            && Told(m'.trace) == Told(m.trace) + [FunctionCall(m.st.nextOi, d.id, d.name)]
                                 + (if d.args == "" then [] else [Said(m.st.nextOi, Arguments, d.args)])
            && idx in m'.st.tools && m'.st.tools == m.st.tools[idx := m'.st.tools[idx]]
            && m'.st.tools[idx].oi == m.st.nextOi && m'.st.tools[idx].upstreamId == d.id
            && m'.st.nextOi == m.st.nextOi + 1 && m'.st.text.None? && m'.st.reasoning.None?
  {
    var m1 := if idx in m.st.tools then Deliver(m, CloseCall(m.st, o, idx)) else m;
    var m2 := Deliver(m1, CloseReasoning(m1.st, o));
    var m3 := Deliver(m2, CloseText(m2.st, o));
    CloseCallSilent(m, o, idx);
    CloseTextsSilent(m1, o);
    OpenNewCallEffect(m3, idx, d);
    AppendArgsEffect(OpenNewCall(m3, idx, d), idx, d.args);
    CallsWithoutIndex(m.st.tools, idx, OnTool(m, o, d).st.tools[idx]);
  }

  lemma NewCallAttributed(m: Machine, o: Options, idx: int, d: ToolDelta, atoms: seq<Atom>)
    requires Attributed(m, atoms) && d.index == Some(idx) && (idx !in m.st.tools || IsNewCall(m.st.tools, idx, d.id))
    ensures Attributed(OnTool(m, o, d), atoms + [Call(FragmentOf(idx, d))])
  {
    var f := FragmentOf(idx, d);
    NewCallOpens(m.st.tools, atoms, idx, d);
    NewCallEffect(m, o, idx, d);
    OpenedCallAgrees(m.st.tools, atoms, f, OnTool(m, o, d).st.tools[idx]);
    AtomSnoc(atoms, Call(f));
  }

  lemma KnownCallAttributed(m: Machine, o: Options, idx: int, d: ToolDelta, atoms: seq<Atom>)
    requires Attributed(m, atoms) && d.index == Some(idx) && idx in m.st.tools && !IsNewCall(m.st.tools, idx, d.id)
    ensures Attributed(OnTool(m, o, d), atoms + [Call(FragmentOf(idx, d))])
  {
    var f := FragmentOf(idx, d);
    var m1 := m.(st := m.st.(tools := m.st.tools[idx := Learn(m.st.tools[idx], d)]));
    NewCallOpens(m.st.tools, atoms, idx, d);
    AppendArgsEffect(m1, idx, d.args);
    var t := OnTool(m, o, d).st.tools[idx];
    LearnedCallAgrees(m.st.tools, atoms, f, t);
    assert m.st.tools[idx := Learn(m.st.tools[idx], d)][idx := t] == m.st.tools[idx := t];
    AtomSnoc(atoms, Call(f));
    RunMeansCall(atoms);
    NoRunNoCalls(m.st.tools, atoms);
    assert Expected(atoms) + [] == Expected(atoms);
  }

  lemma OnToolAttributed(m: Machine, o: Options, d: ToolDelta, atoms: seq<Atom>)
    requires Attributed(m, atoms)
    ensures Attributed(OnTool(m, o, d), atoms + ToolAtoms([d]))
  {
    assert [d][..0] == [] && ToolAtoms([]) == [];
    if d.index.None? {
      assert atoms + ToolAtoms([d]) == atoms;
    } else {
      var idx := d.index.value;
      assert ToolAtoms([d]) == [Call(FragmentOf(idx, d))];
      if idx !in m.st.tools || IsNewCall(m.st.tools, idx, d.id) {
        NewCallAttributed(m, o, idx, d, atoms);
      } else {
        KnownCallAttributed(m, o, idx, d, atoms);
      }
    }
  }
}
