/** Every operation of the graph is a run of six atomic steps, so what each step keeps,
    every operation keeps. */
module GraphSteps {
  import opened Wire
  import opened Endpoints
  import opened GraphModel

  datatype Step =
    | NameStep(ip: string, machine: string)
    | CutStep(gone: set<EdgeKey>)
    | DropStep(dead: set<NodeKey>)
    | TouchStep(k: NodeKey, t: int)
    | PlaceStep(k: NodeKey, machine: string)
    | StoreStep(ek: EdgeKey, e: Edge, v: Verdict, detail: bool)

  /** Both ends of `ek` are there and at least as recent as `t`. */
  predicate EndsRecent(s: State, ek: EdgeKey, t: int) {
    && ek.src in s.nodes && ek.dst in s.nodes && ek.src != ek.dst
    && t <= s.nodes[ek.src].last && t <= s.nodes[ek.dst].last
  }

  function CountsOf(s: State, ek: EdgeKey): Counts {
    if ek in s.edges then s.edges[ek].counts else ZERO
  }

  function LastOf(s: State, ek: EdgeKey): int {
    if ek in s.edges then s.edges[ek].last else ZERO_TIME
  }

  function DropsOf(s: State, ek: EdgeKey): map<string, nat> {
    if ek in s.edges then s.edges[ek].drops else map[]
  }

  function L7Of(s: State, ek: EdgeKey): L7 {
    if ek in s.edges then s.edges[ek].l7 else NO_L7
  }

  /** `e` is the conversation after one more flow with verdict `v`: details that changed
      are flagged, and details once seen do not vanish. */
  predicate Grows(s: State, ek: EdgeKey, e: Edge, v: Verdict, detail: bool) {
    && e.counts == CountsOf(s, ek).Plus(Unit(v))
    && LastOf(s, ek) <= e.last
    && (!detail ==> e.drops == DropsOf(s, ek) && e.l7 == L7Of(s, ek))
    && (e.drops == map[] ==> DropsOf(s, ek) == map[])
    && (e.l7 == NO_L7 ==> L7Of(s, ek) == NO_L7)
    && e.ring.Size() == if ek in s.edges then s.edges[ek].ring.Size() else SlotCount(s)
  }

  predicate Enabled(s: State, step: Step) {
    match step
    case NameStep(_, _) => true
    case CutStep(gone) => gone <= s.edges.Keys
    case DropStep(dead) => dead <= s.nodes.Keys && forall e :: e in s.edges ==> e.src !in dead && e.dst !in dead
    case TouchStep(_, _) => true
    case PlaceStep(k, machine) => k in s.nodes
    case StoreStep(ek, e, v, detail) => EndsRecent(s, ek, e.last) && Grows(s, ek, e, v, detail)
  }

  function Do(s: State, step: Step): State
    requires Enabled(s, step)
  {
    match step
    case NameStep(ip, machine) => Name(s, ip, machine)
    case CutStep(gone) => CutEdges(s, gone)
    case DropStep(dead) => DropNodes(s, dead)
    case TouchStep(k, t) => Touch(s, k, t)
    case PlaceStep(k, machine) => PlaceOn(s, k, machine)
    case StoreStep(ek, e, v, detail) => Store(s, ek, e, v, detail)
  }

  predicate Legal(s: State, steps: seq<Step>)
    decreases steps
  {
    steps == [] || (Enabled(s, steps[0]) && Legal(Do(s, steps[0]), steps[1..]))
  }

  function Run(s: State, steps: seq<Step>): State
    requires Legal(s, steps)
    decreases steps
  {
    if steps == [] then s else Run(Do(s, steps[0]), steps[1..])
  }

  lemma {:induction false} RunConcat(s: State, a: seq<Step>, b: seq<Step>)
    requires Legal(s, a) && Legal(Run(s, a), b)
    ensures Legal(s, a + b) && Run(s, a + b) == Run(Run(s, a), b)
    decreases a
  {
    if a == [] {
      assert a + b == b;
    } else {
      assert (a + b)[1..] == a[1..] + b;
      RunConcat(Do(s, a[0]), a[1..], b);
    }
  }

  lemma RunOne(s: State, step: Step)
    requires Enabled(s, step)
    ensures Legal(s, [step]) && Run(s, [step]) == Do(s, step)
  {
  }

  lemma RunSnoc(s: State, a: seq<Step>, step: Step)
    requires Legal(s, a) && Enabled(Run(s, a), step)
    ensures Legal(s, a + [step]) && Run(s, a + [step]) == Do(Run(s, a), step)
  {
    RunOne(Run(s, a), step);
    RunConcat(s, a, [step]);
  }

  // ---------- the operations as runs ----------

  function RetireSteps(s: State, ip: string): seq<Step> {
    if Anchor(ip) !in s.nodes then []
    else [CutStep(Incident(s.edges.Keys, Anchor(ip))), DropStep({Anchor(ip)})]
  }

  lemma RetireIsRun(s: State, ip: string)
    ensures Legal(s, RetireSteps(s, ip)) && Run(s, RetireSteps(s, ip)) == Retire(s, ip)
  {
    if Anchor(ip) in s.nodes {
      var cut := CutStep(Incident(s.edges.Keys, Anchor(ip)));
      RunOne(s, cut);
      RunSnoc(s, [cut], DropStep({Anchor(ip)}));
      assert RetireSteps(s, ip) == [cut] + [DropStep({Anchor(ip)})];
    }
  }

  function LearnSteps(s: State, ip: string, machine: string): seq<Step> {
    if ip == "" || machine == "" || (ip in s.nodeIPs && s.nodeIPs[ip] == machine) then []
    else [NameStep(ip, machine)] + RetireSteps(Name(s, ip, machine), ip)
  }

  lemma LearnIsRun(s: State, ip: string, machine: string)
    ensures Legal(s, LearnSteps(s, ip, machine)) && Run(s, LearnSteps(s, ip, machine)) == Learn(s, ip, machine)
  {
    if LearnSteps(s, ip, machine) != [] {
      RunOne(s, NameStep(ip, machine));
      RetireIsRun(Name(s, ip, machine), ip);
      RunConcat(s, [NameStep(ip, machine)], RetireSteps(Name(s, ip, machine), ip));
    }
  }

  function SideSteps(s: State, side: Side, observer: string): seq<Step> {
    match Teaches(side, observer)
    case Some(ip) => LearnSteps(s, ip, observer)
    case None => []
  }

  lemma SideIsRun(s: State, side: Side, observer: string)
    ensures Legal(s, SideSteps(s, side, observer))
    ensures Run(s, SideSteps(s, side, observer)) == AfterSide(s, side, observer)
  {
    match Teaches(side, observer)
    case Some(ip) => LearnIsRun(s, ip, observer);
    case None =>
  }

  function ResolveSteps(s: State, f: Flow): seq<Step> {
    SideSteps(s, f.src, f.observer) + SideSteps(AfterSide(s, f.src, f.observer), f.dst, f.observer)
  }

  lemma ResolveIsRun(s: State, f: Flow)
    ensures Legal(s, ResolveSteps(s, f)) && Run(s, ResolveSteps(s, f)) == Resolved(s, f)
  {
    SideIsRun(s, f.src, f.observer);
    SideIsRun(AfterSide(s, f.src, f.observer), f.dst, f.observer);
    RunConcat(s, SideSteps(s, f.src, f.observer), SideSteps(AfterSide(s, f.src, f.observer), f.dst, f.observer));
  }

  function PlaceSteps(src: NodeKey, dst: NodeKey, f: Flow): seq<Step> {
    if f.direction.Egress? then [PlaceStep(src, f.observer)]
    else if f.direction.Ingress? then [PlaceStep(dst, f.observer)]
    else []
  }

  function PrepareSteps(src: NodeKey, dst: NodeKey, f: Flow): seq<Step> {
    [TouchStep(src, f.time)] + [TouchStep(dst, f.time)] + PlaceSteps(src, dst, f)
  }

  lemma PrepareIsRun(s: State, src: NodeKey, dst: NodeKey, f: Flow)
    ensures Legal(s, PrepareSteps(src, dst, f)) && Run(s, PrepareSteps(src, dst, f)) == Prepared(s, src, dst, f)
  {
    var s1 := Touched(s, src, dst, f);
    var touches := [TouchStep(src, f.time)] + [TouchStep(dst, f.time)];
    RunOne(s, TouchStep(src, f.time));
    RunSnoc(s, [TouchStep(src, f.time)], TouchStep(dst, f.time));
    assert Run(s, touches) == s1;
    if f.direction != Undirected {
      RunOne(s1, PlaceSteps(src, dst, f)[0]);
    }
    RunConcat(s, touches, PlaceSteps(src, dst, f));
  }

  /** The conversation an accepted flow is counted on. */
  function EdgeOf(s: State, f: Flow): EdgeKey {
    EdgeKey(SrcKey(s, f), DstKey(s, f), f.proto, f.port)
  }

  predicate IsCounted(s: State, f: Flow) {
    Accepted(f) && SrcKey(s, f) != DstKey(s, f)
  }

  /** What a flow does before it is counted, and all that a skipped flow does. */
  function LeadIn(s: State, f: Flow): State {
    if !Accepted(f) then s
    else if SrcKey(s, f) == DstKey(s, f) then Resolved(s, f)
    else Prepared(Resolved(s, f), SrcKey(s, f), DstKey(s, f), f)
  }

  function LeadInSteps(s: State, f: Flow): seq<Step> {
    if !Accepted(f) then []
    else if SrcKey(s, f) == DstKey(s, f) then ResolveSteps(s, f)
    else ResolveSteps(s, f) + PrepareSteps(SrcKey(s, f), DstKey(s, f), f)
  }

  lemma LeadInIsRun(s: State, f: Flow)
    ensures Legal(s, LeadInSteps(s, f)) && Run(s, LeadInSteps(s, f)) == LeadIn(s, f)
  {
    ResolveIsRun(s, f);
    if IsCounted(s, f) {
      PrepareIsRun(Resolved(s, f), SrcKey(s, f), DstKey(s, f), f);
      RunConcat(s, ResolveSteps(s, f), PrepareSteps(SrcKey(s, f), DstKey(s, f), f));
    }
  }

  /** The new value of the conversation a counted flow belongs to. */
  function NextEdge(s: State, ek: EdgeKey, f: Flow, v: Verdict): Edge {
    Bump(if ek in s.edges then s.edges[ek] else FreshEdge(s), f, v)
  }

  function CountStep(s: State, ek: EdgeKey, f: Flow, v: Verdict): Step {
    StoreStep(ek, NextEdge(s, ek, f, v), v, HasDetail(f))
  }

  lemma DetailsGrow(drops: map<string, nat>, l: L7, f: Flow)
    ensures NewDrops(drops, f) == map[] ==> drops == map[]
    ensures NewL7(l, f) == NO_L7 ==> l == NO_L7
    ensures !HasDetail(f) ==> NewDrops(drops, f) == drops && NewL7(l, f) == l
  {
  }

  lemma CountGrows(s: State, ek: EdgeKey, f: Flow, v: Verdict)
    ensures Grows(s, ek, NextEdge(s, ek, f, v), v, HasDetail(f))
    ensures NextEdge(s, ek, f, v).last == Max(LastOf(s, ek), f.time)
  {
    var e := if ek in s.edges then s.edges[ek] else FreshEdge(s);
    DetailsGrow(e.drops, e.l7, f);
    assert NextEdge(s, ek, f, v) == Bump(e, f, v);
    assert e.counts == CountsOf(s, ek) && e.last == LastOf(s, ek) && e.drops == DropsOf(s, ek) && e.l7 == L7Of(s, ek);
  }

  /** The newest flow of a conversation is not newer than its ends. */
  predicate EdgeRecent(s: State, ek: EdgeKey) {
    && (ek.src in s.nodes ==> LastOf(s, ek) <= s.nodes[ek.src].last)
    && (ek.dst in s.nodes ==> LastOf(s, ek) <= s.nodes[ek.dst].last)
  }

  lemma CountEnabled(s: State, ek: EdgeKey, f: Flow, v: Verdict)
    requires EndsRecent(s, ek, f.time) && EdgeRecent(s, ek)
    ensures Enabled(s, CountStep(s, ek, f, v))
    ensures Do(s, CountStep(s, ek, f, v)) == Record(s, ek, f, v)
  {
  }

  lemma IngestIsLeadInAndRecord(s: State, f: Flow)
    ensures !IsCounted(s, f) ==> Ingest(s, f) == LeadIn(s, f)
    ensures IsCounted(s, f) ==>
              && EndsRecent(LeadIn(s, f), EdgeOf(s, f), f.time)
              && Ingest(s, f) == Record(LeadIn(s, f), EdgeOf(s, f), f, VerdictCode(f.verdict).value)
  {
  }

  lemma IngestIsCounting(s: State, f: Flow)
    requires IsCounted(s, f) && EdgeRecent(LeadIn(s, f), EdgeOf(s, f))
    ensures var s1, step := LeadIn(s, f), CountStep(LeadIn(s, f), EdgeOf(s, f), f, VerdictCode(f.verdict).value);
            Enabled(s1, step) && Do(s1, step) == Ingest(s, f)
  {
    IngestIsLeadInAndRecord(s, f);
    CountEnabled(LeadIn(s, f), EdgeOf(s, f), f, VerdictCode(f.verdict).value);
  }

  function LearnAllSteps(s: State, addrs: seq<Address>): seq<Step> {
    if addrs == [] then []
    else
      var a := addrs[|addrs| - 1];
      LearnAllSteps(s, addrs[..|addrs| - 1]) + LearnSteps(LearnAll(s, addrs[..|addrs| - 1]), a.ip, a.machine)
  }

  lemma {:induction false} LearnAllIsRun(s: State, addrs: seq<Address>)
    ensures Legal(s, LearnAllSteps(s, addrs)) && Run(s, LearnAllSteps(s, addrs)) == LearnAll(s, addrs)
  {
    if addrs != [] {
      var init, a := addrs[..|addrs| - 1], addrs[|addrs| - 1];
      LearnAllIsRun(s, init);
      LearnIsRun(LearnAll(s, init), a.ip, a.machine);
      RunConcat(s, LearnAllSteps(s, init), LearnSteps(LearnAll(s, init), a.ip, a.machine));
    }
  }

  // ---------- runs that count nothing ----------

  /** A run that counts nothing. */
  predicate Quiet(steps: seq<Step>) {
    forall i :: 0 <= i < |steps| ==> !steps[i].StoreStep?
  }

  lemma LearnQuiet(s: State, ip: string, machine: string)
    ensures Quiet(LearnSteps(s, ip, machine))
  {
  }

  lemma {:induction false} LearnAllQuiet(s: State, addrs: seq<Address>)
    ensures Quiet(LearnAllSteps(s, addrs))
    decreases addrs
  {
    if addrs != [] {
      var a := addrs[|addrs| - 1];
      LearnAllQuiet(s, addrs[..|addrs| - 1]);
      LearnQuiet(LearnAll(s, addrs[..|addrs| - 1]), a.ip, a.machine);
    }
  }

  lemma SideQuiet(s: State, side: Side, observer: string)
    ensures Quiet(SideSteps(s, side, observer))
  {
  }

  lemma LeadInQuiet(s: State, f: Flow)
    ensures Quiet(LeadInSteps(s, f))
  {
    SideQuiet(s, f.src, f.observer);
    SideQuiet(AfterSide(s, f.src, f.observer), f.dst, f.observer);
    assert Quiet(ResolveSteps(s, f));
    assert Quiet(PrepareSteps(SrcKey(s, f), DstKey(s, f), f));
  }
}
