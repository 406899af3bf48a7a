/**
 The breaker's calls as interleaved atomic steps under its two kinds of lock: the
 read-write lock of the URL map and one mutex per URL record.

 A pending writer blocks new readers, as Go's RWMutex does. Every interleaving of
 every number of calls is a schedule: a sequence of steps, each naming the call that
 moves. The module proves that no update is lost and that no schedule deadlocks.
 */
module BreakerLocks {
  import opened Prelude
  import opened Breaker
  import opened Mirror

  type Tid = nat     // a call in progress, or finished
  type Record = nat  // a URL record, by its place in the heap

  datatype Pc =
    // getURLState
    | LookupWait                               // wants the map's read lock
    | LookupRead                               // holds it
    | AddWait                                  // wants the map's write lock
    | AddPending                               // has announced itself; readers drain
    | AddWrite                                 // holds it
    // the locked section
    | UrlWait(record: Record)
    | UrlHeld(record: Record)
    // triggerChange
    | NotifyWait
    | NotifyRead
    // OnStateChange
    | SetWait
    | SetPending
    | SetWrite
    // GetBreakers
    | ListWait
    | ListRead(todo: set<Record>)
    | ListUrlWait(record: Record, todo: set<Record>)
    | ListUrlHeld(record: Record, todo: set<Record>)
    | Finished

  datatype Task = OnUrl(url: string, op: Op) | SetCallback | ListBreakers

  datatype Thread = Thread(task: Task, pc: Pc)

  datatype Sys = Sys(
    records: map<string, Record>,      // urlStates
    heap: seq<Url>,                    // the records themselves
    readers: set<Tid>,                 // holders of the map's read lock
    writer: Option<Tid>,               // the announced or active writer
    owners: map<Record, Tid>,          // holders of URL mutexes
    threads: map<Tid, Thread>,
    clock: int,
    log: seq<UrlCall>,                 // locked sections, in the order they ran
    ran: seq<Tid>)                     // the calls they belong to

  /** One step of a schedule: a new call begins, or a call moves on at a clock reading. */
  datatype Move = Begin(tid: Tid, task: Task) | Run(tid: Tid, now: int, pick: Record)

  const INITIAL: Sys := Sys(map[], [], {}, None, map[], map[], 0, [], [])

  function Entry(task: Task): Pc {
    match task
    case OnUrl(_, _) => LookupWait
    case SetCallback => SetWait
    case ListBreakers => ListWait
  }

  function Goto(s: Sys, t: Tid, pc: Pc): Sys
    requires t in s.threads
  {
    s.(threads := s.threads[t := s.threads[t].(pc := pc)])
  }

  /** getURLState: read the map, and when the URL is missing look again under the write lock. */
  function AdvanceLookup(s: Sys, t: Tid): Option<Sys>
    requires t in s.threads
  {
    var th := s.threads[t];
    if !th.task.OnUrl? then None
    else
      var url := th.task.url;
      match th.pc
      case LookupWait => if s.writer.Some? then None else Some(Goto(s, t, LookupRead).(readers := s.readers + {t}))
      case LookupRead =>
        var pc := if url in s.records then UrlWait(s.records[url]) else AddWait;
        Some(Goto(s, t, pc).(readers := s.readers - {t}))
      case AddWait => if s.writer.Some? then None else Some(Goto(s, t, AddPending).(writer := Some(t)))
      case AddPending => if s.readers != {} then None else Some(Goto(s, t, AddWrite))
      case AddWrite =>
        if url in s.records then Some(Goto(s, t, UrlWait(s.records[url])).(writer := None))
        else Some(Goto(s, t, UrlWait(|s.heap|)).(
                  writer := None,
                  records := s.records[url := |s.heap|],
                  heap := s.heap + [FRESH]))
      case _ => None
  }

  /** The section under the URL's mutex, then triggerChange when there is something to report. */
  function AdvanceUrl(c: Config, s: Sys, t: Tid, now: int): Option<Sys>
    requires t in s.threads
  {
    var th := s.threads[t];
    if !th.task.OnUrl? then None
    else
      match th.pc
      case UrlWait(r) => if r in s.owners then None else Some(Goto(s, t, UrlHeld(r)).(owners := s.owners[r := t]))
      case UrlHeld(r) =>
        if r >= |s.heap| || now < s.clock then None
        else
          var call := Call(th.task.op, now);
          var next := if NoticeOf(c, s.heap[r], call).Some? then NotifyWait else Finished;
          Some(Goto(s, t, next).(
               heap := s.heap[r := Locked(c, s.heap[r], call)],
               owners := s.owners - {r},
               clock := now,
               log := s.log + [UrlCall(th.task.url, call)],
               ran := s.ran + [t]))
      case NotifyWait => if s.writer.Some? then None else Some(Goto(s, t, NotifyRead).(readers := s.readers + {t}))
      case NotifyRead => Some(Goto(s, t, Finished).(readers := s.readers - {t}))
      case _ => None
  }

  /** OnStateChange: one write-locked assignment. */
  function AdvanceSet(s: Sys, t: Tid): Option<Sys>
    requires t in s.threads
  {
    match s.threads[t].pc
    case SetWait => if s.writer.Some? then None else Some(Goto(s, t, SetPending).(writer := Some(t)))
    case SetPending => if s.readers != {} then None else Some(Goto(s, t, SetWrite))
    case SetWrite => Some(Goto(s, t, Finished).(writer := None))
    case _ => None
  }

  /** GetBreakers: the read lock is held throughout, each URL's mutex in turn, in any order. */
  function AdvanceList(s: Sys, t: Tid, pick: Record): Option<Sys>
    requires t in s.threads
  {
    match s.threads[t].pc
    case ListWait => if s.writer.Some? then None
                     else Some(Goto(s, t, ListRead(s.records.Values)).(readers := s.readers + {t}))
    case ListRead(todo) =>
      if todo == {} then Some(Goto(s, t, Finished).(readers := s.readers - {t}))
      else if pick in todo then Some(Goto(s, t, ListUrlWait(pick, todo - {pick})))
      else None
    case ListUrlWait(r, todo) =>
      if r in s.owners then None else Some(Goto(s, t, ListUrlHeld(r, todo)).(owners := s.owners[r := t]))
    case ListUrlHeld(r, todo) => Some(Goto(s, t, ListRead(todo)).(owners := s.owners - {r}))
    case _ => None
  }

  /** The effect of call `t` moving on, or `None` when it is blocked or finished. */
  function Advance(c: Config, s: Sys, t: Tid, now: int, pick: Record): Option<Sys>
    requires t in s.threads
  {
    var pc := s.threads[t].pc;
    if pc.LookupWait? || pc.LookupRead? || pc.AddWait? || pc.AddPending? || pc.AddWrite? then AdvanceLookup(s, t)
    else if s.threads[t].task.SetCallback? then AdvanceSet(s, t)
    else if s.threads[t].task.ListBreakers? then AdvanceList(s, t, pick)
    else AdvanceUrl(c, s, t, now)
  }

  function Next(c: Config, s: Sys, m: Move): Option<Sys> {
    match m
    case Begin(t, task) =>
      if t in s.threads then None else Some(s.(threads := s.threads[t := Thread(task, Entry(task))]))
    case Run(t, now, pick) =>
      if t in s.threads then Advance(c, s, t, now, pick) else None
  }

  /** The state after a schedule, when every move of it was possible. */
  function Execute(c: Config, schedule: seq<Move>): Option<Sys> {
    if schedule == [] then Some(INITIAL)
    else
      match Execute(c, schedule[..|schedule| - 1])
      case None => None
      case Some(s) => Next(c, s, schedule[|schedule| - 1])
  }

  // ---- Who holds what ----------------------------------------------------------

  predicate HoldsRead(pc: Pc) {
    pc.LookupRead? || pc.NotifyRead? || pc.ListRead? || pc.ListUrlWait? || pc.ListUrlHeld?
  }

  predicate HoldsWrite(pc: Pc) {
    pc.AddPending? || pc.AddWrite? || pc.SetPending? || pc.SetWrite?
  }

  predicate HoldsUrl(pc: Pc, r: Record) {
    (pc.UrlHeld? || pc.ListUrlHeld?) && pc.record == r
  }

  predicate FitsTask(th: Thread) {
    match th.pc
    case Finished => true
    case SetWait => th.task.SetCallback?
    case SetPending => th.task.SetCallback?
    case SetWrite => th.task.SetCallback?
    case ListWait => th.task.ListBreakers?
    case ListRead(_) => th.task.ListBreakers?
    case ListUrlWait(_, _) => th.task.ListBreakers?
    case ListUrlHeld(_, _) => th.task.ListBreakers?
    case _ => th.task.OnUrl?
  }

  ghost predicate ReadersMatch(s: Sys) {
    forall t :: t in s.readers <==> t in s.threads && HoldsRead(s.threads[t].pc)
  }

  ghost predicate WriterMatches(s: Sys) {
    forall t :: s.writer == Some(t) <==> t in s.threads && HoldsWrite(s.threads[t].pc)
  }

  ghost predicate OwnersMatch(s: Sys) {
    && (forall r :: r in s.owners ==> s.owners[r] in s.threads && HoldsUrl(s.threads[s.owners[r]].pc, r))
    && (forall t, r :: t in s.threads && HoldsUrl(s.threads[t].pc, r) ==> r in s.owners && s.owners[r] == t)
  }

  /** The locks are held by exactly the calls whose position says so. */
  ghost predicate LocksMatch(s: Sys) {
    && (forall t :: t in s.threads ==> FitsTask(s.threads[t]))
    && ReadersMatch(s)
    && WriterMatches(s)
    && OwnersMatch(s)
  }

  /** Call `t` moves from `s` to `s'` and takes or gives up just the locks its positions name. */
  ghost predicate HandsOver(s: Sys, s': Sys, t: Tid) {
    && t in s.threads
    && t in s'.threads
    && s'.threads == s.threads[t := s'.threads[t]]
    && FitsTask(s'.threads[t])
    && var pc, pc' := s.threads[t].pc, s'.threads[t].pc;
    && s'.readers == (if HoldsRead(pc') then s.readers + {t} else s.readers - {t})
    && s'.writer == (if HoldsWrite(pc') then Some(t) else if HoldsWrite(pc) then None else s.writer)
    && (HoldsWrite(pc') ==> HoldsWrite(pc) || s.writer.None?)
    && (if pc'.UrlHeld? || pc'.ListUrlHeld? then
          !pc.UrlHeld? && !pc.ListUrlHeld? && pc'.record !in s.owners && s'.owners == s.owners[pc'.record := t]
        else if pc.UrlHeld? || pc.ListUrlHeld? then
          s'.owners == s.owners - {pc.record}
        else
          s'.owners == s.owners)
  }

  /** What `LocksMatch` says of one call. */
  ghost predicate HoldsWhatItShould(s: Sys, t: Tid)
    requires t in s.threads
  {
    var pc := s.threads[t].pc;
    && FitsTask(s.threads[t])
    && (t in s.readers <==> HoldsRead(pc))
    && (s.writer == Some(t) <==> HoldsWrite(pc))
  }

  lemma LookupHandsOver(s: Sys, t: Tid)
    requires t in s.threads && HoldsWhatItShould(s, t) && AdvanceLookup(s, t).Some?
    ensures HandsOver(s, AdvanceLookup(s, t).value, t)
  {
  }

  lemma UrlSectionHandsOver(c: Config, s: Sys, t: Tid, now: int)
    requires t in s.threads && HoldsWhatItShould(s, t) && AdvanceUrl(c, s, t, now).Some?
    ensures HandsOver(s, AdvanceUrl(c, s, t, now).value, t)
  {
  }

  lemma SetHandsOver(s: Sys, t: Tid)
    requires t in s.threads && HoldsWhatItShould(s, t) && AdvanceSet(s, t).Some?
    ensures HandsOver(s, AdvanceSet(s, t).value, t)
  {
  }

  lemma ListHandsOver(s: Sys, t: Tid, pick: Record)
    requires t in s.threads && HoldsWhatItShould(s, t) && AdvanceList(s, t, pick).Some?
    ensures HandsOver(s, AdvanceList(s, t, pick).value, t)
  {
  }

  lemma AdvanceHandsOver(c: Config, s: Sys, t: Tid, now: int, pick: Record)
    requires t in s.threads && HoldsWhatItShould(s, t) && Advance(c, s, t, now, pick).Some?
    ensures HandsOver(s, Advance(c, s, t, now, pick).value, t)
  {
    var pc := s.threads[t].pc;
    if pc.LookupWait? || pc.LookupRead? || pc.AddWait? || pc.AddPending? || pc.AddWrite? {
      LookupHandsOver(s, t);
    } else if s.threads[t].task.SetCallback? {
      SetHandsOver(s, t);
    } else if s.threads[t].task.ListBreakers? {
      ListHandsOver(s, t, pick);
    } else {
      UrlSectionHandsOver(c, s, t, now);
    }
  }

  lemma HandOverKeepsReadersAndWriter(s: Sys, s': Sys, t: Tid)
    requires LocksMatch(s) && HandsOver(s, s', t)
    ensures ReadersMatch(s') && WriterMatches(s')
  {
  }

  /** After a hand-over, whoever is entered as the owner of a mutex holds it. */
  lemma OwnerHolds(s: Sys, s': Sys, t: Tid, r: Record)
    requires LocksMatch(s) && HandsOver(s, s', t) && r in s'.owners
    ensures s'.owners[r] in s'.threads && HoldsUrl(s'.threads[s'.owners[r]].pc, r)
  {
    var pc, pc' := s.threads[t].pc, s'.threads[t].pc;
    if (pc'.UrlHeld? || pc'.ListUrlHeld?) && r == pc'.record {
      assert s'.owners[r] == t;
    } else {
      var x := s.owners[r];
      assert HoldsUrl(s.threads[x].pc, r);
      assert s'.owners[r] == x;
      assert x != t;
    }
  }

  /** And whoever holds one is entered as its owner. */
  lemma HolderOwns(s: Sys, s': Sys, t: Tid, x: Tid, r: Record)
    requires LocksMatch(s) && HandsOver(s, s', t) && x in s'.threads && HoldsUrl(s'.threads[x].pc, r)
    ensures r in s'.owners && s'.owners[r] == x
  {
    var pc := s.threads[t].pc;
    if x != t {
      assert HoldsUrl(s.threads[x].pc, r);
      assert r in s.owners && s.owners[r] == x;
      if pc.UrlHeld? || pc.ListUrlHeld? {
        assert HoldsUrl(pc, pc.record);
        assert s.owners[pc.record] == t;
      }
    }
  }

  lemma HandOverKeepsOwners(s: Sys, s': Sys, t: Tid)
    requires LocksMatch(s) && HandsOver(s, s', t)
    ensures OwnersMatch(s')
  {
    forall r | r in s'.owners
      ensures s'.owners[r] in s'.threads && HoldsUrl(s'.threads[s'.owners[r]].pc, r)
    {
      OwnerHolds(s, s', t, r);
    }
    forall x, r | x in s'.threads && HoldsUrl(s'.threads[x].pc, r)
      ensures r in s'.owners && s'.owners[r] == x
    {
      HolderOwns(s, s', t, x, r);
    }
  }

  lemma StepKeepsLocks(c: Config, s: Sys, m: Move)
    requires LocksMatch(s) && Next(c, s, m).Some?
    ensures LocksMatch(Next(c, s, m).value)
  {
    var s' := Next(c, s, m).value;
    if m.Run? {
      AdvanceHandsOver(c, s, m.tid, m.now, m.pick);
      HandOverKeepsReadersAndWriter(s, s', m.tid);
      HandOverKeepsOwners(s, s', m.tid);
    }
  }

  // ---- No lost updates ---------------------------------------------------------

  /** Records belong to one URL each, and carry what that URL's calls made of them. */
  ghost predicate RecordsMatch(c: Config, s: Sys) {
    && (forall u :: u in s.records ==> s.records[u] < |s.heap|)
    && (forall u, v :: u in s.records && v in s.records && s.records[u] == s.records[v] ==> u == v)
    && (forall u :: u in s.records ==> s.heap[s.records[u]] == Lookup(BreakerAfter(c, s.log), u))
    && (forall u :: u in BreakerAfter(c, s.log) ==> u in s.records)
  }

  /** A call that is about to use a record uses the one its URL has. */
  ghost predicate CallsUseTheRecord(s: Sys) {
    forall t :: t in s.threads && s.threads[t].task.OnUrl? && (s.threads[t].pc.UrlWait? || s.threads[t].pc.UrlHeld?) ==>
      && s.threads[t].task.url in s.records
      && s.records[s.threads[t].task.url] == s.threads[t].pc.record
  }

  ghost predicate LogInOrder(s: Sys) {
    && (forall i :: 0 <= i < |s.log| ==> s.log[i].call.now <= s.clock)
    && (forall i, j :: 0 <= i < j < |s.log| ==> s.log[i].call.now <= s.log[j].call.now)
  }

  ghost predicate StoreInvariant(c: Config, s: Sys) {
    RecordsMatch(c, s) && CallsUseTheRecord(s) && LogInOrder(s)
  }

  ghost predicate NoRecordReplaced(s: Sys, s': Sys) {
    forall u :: u in s.records ==> u in s'.records && s'.records[u] == s.records[u]
  }

  /** Call `t` moved without touching map, records or history. */
  ghost predicate MovesOnly(s: Sys, s': Sys, t: Tid) {
    && t in s.threads
    && t in s'.threads
    && s'.threads == s.threads[t := s'.threads[t]]
    && s'.threads[t].task == s.threads[t].task
    && s'.records == s.records && s'.heap == s.heap && s'.log == s.log && s'.ran == s.ran && s'.clock == s.clock
    && (s'.threads[t].task.OnUrl? && (s'.threads[t].pc.UrlWait? || s'.threads[t].pc.UrlHeld?) ==>
          && s.threads[t].task.url in s.records
          && s.records[s.threads[t].task.url] == s'.threads[t].pc.record)
  }

  lemma MovingKeepsStore(c: Config, s: Sys, s': Sys, t: Tid)
    requires StoreInvariant(c, s) && MovesOnly(s, s', t)
    ensures StoreInvariant(c, s') && NoRecordReplaced(s, s')
  {
  }

  lemma AddingKeepsStore(c: Config, s: Sys, t: Tid)
    requires StoreInvariant(c, s) && t in s.threads
    requires s.threads[t].task.OnUrl? && s.threads[t].pc.AddWrite? && s.threads[t].task.url !in s.records
    ensures StoreInvariant(c, AdvanceLookup(s, t).value) && NoRecordReplaced(s, AdvanceLookup(s, t).value)
  {
    var s' := AdvanceLookup(s, t).value;
    forall u | u in s'.records
      ensures s'.records[u] < |s'.heap| && s'.heap[s'.records[u]] == Lookup(BreakerAfter(c, s.log), u)
    {
    }
  }

  lemma SectionKeepsStore(c: Config, s: Sys, t: Tid, now: int)
    requires StoreInvariant(c, s) && t in s.threads
    requires s.threads[t].pc.UrlHeld? && AdvanceUrl(c, s, t, now).Some?
    ensures StoreInvariant(c, AdvanceUrl(c, s, t, now).value) && NoRecordReplaced(s, AdvanceUrl(c, s, t, now).value)
  {
    var s' := AdvanceUrl(c, s, t, now).value;
    var url := s.threads[t].task.url;
    assert s'.log[..|s'.log| - 1] == s.log;
    forall u | u in s'.records
      ensures s'.heap[s'.records[u]] == Lookup(BreakerAfter(c, s'.log), u)
    {
      assert u != url ==> s.records[u] != s.records[url];
    }
  }

  lemma OtherMovesOnly(c: Config, s: Sys, t: Tid, now: int, pick: Record)
    requires CallsUseTheRecord(s) && t in s.threads && FitsTask(s.threads[t])
    requires Advance(c, s, t, now, pick).Some?
    requires !s.threads[t].pc.UrlHeld?
    requires !(s.threads[t].pc.AddWrite? && s.threads[t].task.url !in s.records)
    ensures MovesOnly(s, Advance(c, s, t, now, pick).value, t)
  {
  }

  lemma StepKeepsStore(c: Config, s: Sys, m: Move)
    requires LocksMatch(s) && StoreInvariant(c, s) && Next(c, s, m).Some?
    ensures StoreInvariant(c, Next(c, s, m).value) && NoRecordReplaced(s, Next(c, s, m).value)
  {
    if m.Run? {
      AdvanceKeepsStore(c, s, m.tid, m.now, m.pick);
    } else {
      BeginningKeepsStore(c, s, m);
    }
  }

  lemma AdvanceKeepsStore(c: Config, s: Sys, t: Tid, now: int, pick: Record)
    requires StoreInvariant(c, s) && t in s.threads && FitsTask(s.threads[t]) && Advance(c, s, t, now, pick).Some?
    ensures StoreInvariant(c, Advance(c, s, t, now, pick).value) && NoRecordReplaced(s, Advance(c, s, t, now, pick).value)
  {
    var th := s.threads[t];
    if th.pc.AddWrite? && th.task.url !in s.records {
      AddingKeepsStore(c, s, t);
    } else if th.pc.UrlHeld? {
      SectionKeepsStore(c, s, t, now);
    } else {
      OtherMovesOnly(c, s, t, now, pick);
      MovingKeepsStore(c, s, Advance(c, s, t, now, pick).value, t);
    }
  }

  lemma BeginningKeepsStore(c: Config, s: Sys, m: Move)
    requires StoreInvariant(c, s) && m.Begin? && Next(c, s, m).Some?
    ensures StoreInvariant(c, Next(c, s, m).value) && NoRecordReplaced(s, Next(c, s, m).value)
  {
  }

  // ---- Every call takes effect exactly once ------------------------------------

  /** The call's locked section is behind it. */
  predicate HasRun(th: Thread) {
    th.task.OnUrl? && (th.pc.NotifyWait? || th.pc.NotifyRead? || th.pc.Finished?)
  }

  /** The history holds each call that has run once, with its own URL and operation, and no other. */
  ghost predicate RunsOnce(s: Sys) {
    && |s.ran| == |s.log|
    && (forall i :: 0 <= i < |s.ran| ==>
          && s.ran[i] in s.threads
          && HasRun(s.threads[s.ran[i]])
          && s.threads[s.ran[i]].task == OnUrl(s.log[i].url, s.log[i].call.op))
    && (forall i, j :: 0 <= i < j < |s.ran| ==> s.ran[i] != s.ran[j])
    && (forall t :: t in s.threads && HasRun(s.threads[t]) ==> t in s.ran)
  }

  lemma SectionRunsOnce(c: Config, s: Sys, t: Tid, now: int)
    requires RunsOnce(s) && t in s.threads && s.threads[t].pc.UrlHeld? && AdvanceUrl(c, s, t, now).Some?
    ensures RunsOnce(AdvanceUrl(c, s, t, now).value)
  {
    var s' := AdvanceUrl(c, s, t, now).value;
    forall x | x in s'.threads && HasRun(s'.threads[x])
      ensures x in s'.ran
    {
      assert s'.ran[|s.ran|] == t;
    }
  }

  /** Outside the locked section a move neither runs a call nor undoes one. */
  lemma OtherMovesRunNothing(c: Config, s: Sys, t: Tid, now: int, pick: Record)
    requires t in s.threads && FitsTask(s.threads[t]) && Advance(c, s, t, now, pick).Some? && !s.threads[t].pc.UrlHeld?
    ensures var s' := Advance(c, s, t, now, pick).value;
            && s'.threads.Keys == s.threads.Keys
            && s'.threads == s.threads[t := s'.threads[t]]
            && s'.threads[t].task == s.threads[t].task
            && HasRun(s'.threads[t]) == HasRun(s.threads[t])
            && s'.log == s.log && s'.ran == s.ran
  {
  }

  lemma StepRunsOnce(c: Config, s: Sys, m: Move)
    requires LocksMatch(s) && RunsOnce(s) && Next(c, s, m).Some?
    ensures RunsOnce(Next(c, s, m).value)
  {
    if m.Run? {
      if s.threads[m.tid].pc.UrlHeld? {
        SectionRunsOnce(c, s, m.tid, m.now);
      } else {
        OtherMovesRunNothing(c, s, m.tid, m.now, m.pick);
      }
    }
  }

  // ---- All schedules -----------------------------------------------------------

  lemma {:induction false} ReachableInvariants(c: Config, schedule: seq<Move>)
    requires Execute(c, schedule).Some?
    ensures LocksMatch(Execute(c, schedule).value)
    ensures StoreInvariant(c, Execute(c, schedule).value)
    ensures RunsOnce(Execute(c, schedule).value)
  {
    if schedule != [] {
      var shorter := schedule[..|schedule| - 1];
      var s, last := Execute(c, shorter).value, schedule[|schedule| - 1];
      ReachableInvariants(c, shorter);
      StepKeepsLocks(c, s, last);
      StepKeepsStore(c, s, last);
      StepRunsOnce(c, s, last);
    }
  }

  /** Going on from a schedule replaces no record. */
  lemma {:induction false} RecordsPersist(c: Config, schedule: seq<Move>, more: seq<Move>)
    requires Execute(c, schedule + more).Some?
    ensures Execute(c, schedule).Some?
    ensures NoRecordReplaced(Execute(c, schedule).value, Execute(c, schedule + more).value)
    decreases |more|
  {
    var all := schedule + more;
    if more == [] {
      assert all == schedule;
    } else {
      assert all[..|all| - 1] == schedule + more[..|more| - 1];
      RecordsPersist(c, schedule, more[..|more| - 1]);
      ReachableInvariants(c, all[..|all| - 1]);
      StepKeepsStore(c, Execute(c, all[..|all| - 1]).value, all[|all| - 1]);
    }
  }

  /**
   No update is lost under any interleaving of the read-then-write lookup: a URL's
   record is never replaced, it holds the result of all the URL's calls in the order
   of their locked sections, every such call that is past its section is in that
   history exactly once, and readings in the history never decrease.
   */
  lemma NoLostUpdates(c: Config, schedule: seq<Move>, more: seq<Move>, url: string)
    requires Execute(c, schedule + more).Some?
    ensures Execute(c, schedule).Some?
    ensures var early, s := Execute(c, schedule).value, Execute(c, schedule + more).value;
            && (url in early.records ==> url in s.records && s.records[url] == early.records[url])
            && (url in s.records ==>
                  && s.records[url] < |s.heap|
                  && s.heap[s.records[url]] == After(c, FRESH, Project(s.log, url))
                  && Ordered(Project(s.log, url)))
            && RunsOnce(s)
  {
    RecordsPersist(c, schedule, more);
    ReachableInvariants(c, schedule + more);
    var s := Execute(c, schedule + more).value;
    UrlsAreIndependent(c, s.log, url);
    ProjectionInOrder(s.log, url);
  }

  /**
   Under every schedule a URL's failure count is the number of failures in its history since
   its last success, and a Closed URL is below the threshold.
   */
  lemma ConcurrentFailureCount(c: Config, schedule: seq<Move>, url: string, p: nat)
    requires c.Valid() && Execute(c, schedule).Some? && url in Execute(c, schedule).value.records
    requires var calls := Project(Execute(c, schedule).value.log, url);
             && p <= |calls|
             && (p == 0 || calls[p - 1].op.Success?)
             && (forall i :: p <= i < |calls| ==> !calls[i].op.Success?)
    ensures var s := Execute(c, schedule).value;
            && s.records[url] < |s.heap|
            && s.heap[s.records[url]].failures == CountFailures(Project(s.log, url)[p..])
            && (s.heap[s.records[url]].state.Closed? ==> s.heap[s.records[url]].failures < c.maxFailures)
  {
    assert schedule + [] == schedule;
    NoLostUpdates(c, schedule, [], url);
    FailuresAreTrailingRun(c, Project(Execute(c, schedule).value.log, url), p);
  }

  lemma {:induction false} ProjectionInOrder(log: seq<UrlCall>, url: string)
    requires forall i, j :: 0 <= i < j < |log| ==> log[i].call.now <= log[j].call.now
    ensures Ordered(Project(log, url))
    ensures forall x <- Project(log, url) :: exists i :: 0 <= i < |log| && log[i].call == x
  {
    if log != [] {
      var shorter := log[..|log| - 1];
      ProjectionInOrder(shorter, url);
      forall x <- Project(log, url)
        ensures exists i :: 0 <= i < |log| && log[i].call == x
      {
        if x in Project(shorter, url) {
          var i :| 0 <= i < |shorter| && shorter[i].call == x;
          assert log[i].call == x;
        } else {
          assert log[|log| - 1].call == x;
        }
      }
      var calls := Project(log, url);
      forall i, j | 0 <= i < j < |calls|
        ensures calls[i].now <= calls[j].now
      {
        if j < |Project(shorter, url)| {
          assert calls[i] == Project(shorter, url)[i] && calls[j] == Project(shorter, url)[j];
        } else {
          assert calls[i] in Project(shorter, url);
        }
      }
    }
  }

  // ---- Deadlock freedom --------------------------------------------------------

  ghost predicate CanMove(c: Config, s: Sys, t: Tid) {
    t in s.threads && exists now, pick :: Advance(c, s, t, now, pick).Some?
  }

  /** Whoever holds a URL's mutex waits for nothing. */
  lemma MutexHolderCanMove(c: Config, s: Sys, t: Tid)
    requires LocksMatch(s) && StoreInvariant(c, s)
    requires t in s.threads && (s.threads[t].pc.UrlHeld? || s.threads[t].pc.ListUrlHeld?)
    ensures CanMove(c, s, t)
  {
    assert FitsTask(s.threads[t]);
    assert Advance(c, s, t, s.clock, 0).Some?;
  }

  /** With all URL mutexes free, every reader inside the map's lock can move. */
  lemma ReaderCanMove(c: Config, s: Sys, t: Tid)
    requires LocksMatch(s) && s.owners == map[] && t in s.threads
    requires HoldsRead(s.threads[t].pc)
    ensures CanMove(c, s, t)
  {
    assert FitsTask(s.threads[t]);
    if s.threads[t].pc.ListRead? && s.threads[t].pc.todo != {} {
      var pick :| pick in s.threads[t].pc.todo;
      assert Advance(c, s, t, s.clock, pick).Some?;
    } else {
      assert Advance(c, s, t, s.clock, 0).Some?;
    }
  }

  lemma HolderIsOwner(s: Sys, t: Tid)
    requires LocksMatch(s)
    requires t in s.threads && (s.threads[t].pc.UrlHeld? || s.threads[t].pc.ListUrlHeld?)
    ensures s.threads[t].pc.record in s.owners
  {
    assert HoldsUrl(s.threads[t].pc, s.threads[t].pc.record);
  }

  /** With no mutex held and no reader inside, an announced writer proceeds; with no writer either, everyone does. */
  lemma OutsideCanMove(c: Config, s: Sys, t: Tid)
    requires LocksMatch(s) && s.owners == map[] && s.readers == {} && t in s.threads
    requires !s.threads[t].pc.Finished? && (s.writer.None? || s.writer == Some(t))
    ensures CanMove(c, s, t)
  {
    assert FitsTask(s.threads[t]);
    assert t !in s.readers;
    var pc := s.threads[t].pc;
    if pc.UrlHeld? || pc.ListUrlHeld? {
      HolderIsOwner(s, t);
      assert false;
    }
    assert Advance(c, s, t, s.clock, 0).Some?;
  }

  /**
   In every reachable state with an unfinished call, some call can move: no schedule
   of the breaker's calls deadlocks, even with pending writers holding readers back.
   */
  lemma DeadlockFree(c: Config, schedule: seq<Move>, unfinished: Tid)
    requires Execute(c, schedule).Some?
    requires unfinished in Execute(c, schedule).value.threads
    requires !Execute(c, schedule).value.threads[unfinished].pc.Finished?
    ensures exists t :: CanMove(c, Execute(c, schedule).value, t)
  {
    var s := Execute(c, schedule).value;
    ReachableInvariants(c, schedule);
    if s.owners != map[] {
      var r :| r in s.owners;
      MutexHolderCanMove(c, s, s.owners[r]);
    } else if s.readers != {} {
      var t :| t in s.readers;
      ReaderCanMove(c, s, t);
    } else if s.writer.Some? {
      OutsideCanMove(c, s, s.writer.value);
    } else {
      OutsideCanMove(c, s, unfinished);
    }
  }
}
