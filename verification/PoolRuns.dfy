/** The connection pool under concurrency: any number of lookups and of racing replacements of
    dead connections, with destruction at any moment.  Sections under the queue's lock are one
    step. */
module PoolRuns {
  import opened Basics
  import opened ConnPool

  // `dead` is gRPC's Shutdown state; closing a connection makes it dead.
  datatype Conn = Conn(id: int, dead: bool, closed: bool, load: nat)

  datatype Ending = Installed | Late | Refused | DialFailed

  // replaceConn: the dial without the lock, then one locked section.
  datatype Replacer = Dialing(old': nat) | Holding(old': nat, new': nat) | Ended(old': nat, how: Ending)

  // GetConn: the pick under the read lock, then the state test and Use without it; Done when the caller leaves.
  datatype Getter = Picked(conn: nat) | Entering(conn: nat) | Using(conn: nat) | Left(conn: nat) | Failed(conn: nat)

  // `replacedBy` records which connection took the place of which, `installs` counts.
  datatype State = State(size: nat, slots: seq<nat>, pending: Option<nat>, shutdown: bool,
                         conns: map<nat, Conn>, getters: map<nat, Getter>, replacers: map<nat, Replacer>,
                         replacedBy: map<nat, nat>, installs: nat)

  ghost predicate Init(s: State) {
    && s.slots == [] && s.pending.None? && !s.shutdown && s.conns == map[]
    && s.getters == map[] && s.replacers == map[] && s.replacedBy == map[] && s.installs == 0
  }

  predicate Ready(s: State) { |s.slots| == s.size }

  // Init: dial, then Add; the queue is published once all slots are filled.
  ghost predicate Fill(s: State, s': State, c: nat) {
    && |s.slots| < s.size
    && if s.pending.None? then
         c !in s.conns && s' == s.(conns := s.conns[c := Conn(0, false, false, 0)], pending := Some(c))
       else
         && s.pending.value in s.conns
         && s' == s.(conns := s.conns[s.pending.value := s.conns[s.pending.value].(id := |s.slots| + 1)],
                     slots := s.slots + [s.pending.value], pending := None)
  }

  // A connection may shut down for reasons of its own.
  ghost predicate Die(s: State, s': State, c: nat) {
    c in s.conns && s' == s.(conns := s.conns[c := s.conns[c].(dead := true)])
  }

  ghost predicate Pick(s: State, s': State, g: nat, i: nat) {
    && Ready(s) && !s.shutdown && g !in s.getters && i < |s.slots| && s.slots[i] in s.conns && !s.conns[s.slots[i]].dead
    && s' == s.(getters := s.getters[g := Picked(s.slots[i])])
  }

  // A picked connection that is dead by now is handed to a new replacement goroutine.
  ghost predicate Test(s: State, s': State, g: nat, r: nat) {
    && g in s.getters && s.getters[g].Picked? && s.getters[g].conn in s.conns && r !in s.replacers
    && var c := s.getters[g].conn;
       s' == if s.conns[c].dead then s.(getters := s.getters[g := Failed(c)], replacers := s.replacers[r := Dialing(c)])
             else s.(getters := s.getters[g := Entering(c)])
  }

  // Use and Done.
  ghost predicate Count(s: State, s': State, g: nat) {
    && g in s.getters && s.getters[g].conn in s.conns
    && var c := s.getters[g].conn;
       match s.getters[g]
       case Entering(_) =>
         s' == s.(getters := s.getters[g := Using(c)],
                  conns := s.conns[c := s.conns[c].(load := Raised(s.conns[c].load))])
       case Using(_) =>
         s' == s.(getters := s.getters[g := Left(c)],
                  conns := s.conns[c := s.conns[c].(load := Lowered(s.conns[c].load))])
       case _ => false
  }

  ghost predicate Dial(s: State, s': State, r: nat, c: nat, ok: bool) {
    && r in s.replacers && s.replacers[r].Dialing? && c !in s.conns
    && s' == if ok then s.(conns := s.conns[c := Conn(0, false, false, 0)],
                           replacers := s.replacers[r := Holding(s.replacers[r].old', c)])
             else s.(replacers := s.replacers[r := Ended(s.replacers[r].old', DialFailed)])
  }

  function Close(conns: map<nat, Conn>, c: nat): map<nat, Conn>
    requires c in conns
  {
    conns[c := conns[c].(dead := true, closed := true)]
  }

  ghost predicate Commit(s: State, s': State, r: nat) {
    && r in s.replacers && s.replacers[r].Holding?
    && s.replacers[r].old' in s.conns && s.replacers[r].new' in s.conns
    && var o, c := s.replacers[r].old', s.replacers[r].new';
       s' == if s.shutdown then s.(conns := Close(s.conns, c), replacers := s.replacers[r := Ended(o, Refused)])
             else if o !in s.slots then s.(conns := Close(s.conns, c), replacers := s.replacers[r := Ended(o, Late)])
             else s.(slots := Replaced(s.slots, o, c),
                     conns := Close(s.conns, o)[c := s.conns[c].(id := s.conns[o].id)],
                     replacers := s.replacers[r := Ended(o, Installed)],
                     replacedBy := s.replacedBy[o := c], installs := s.installs + 1)
  }

  ghost predicate Destroy(s: State, s': State) {
    && Ready(s)
    && s' == s.(shutdown := true,
                conns := map c | c in s.conns ::
                           if c in s.slots then s.conns[c].(dead := true, closed := true) else s.conns[c])
  }

  ghost predicate Next(s: State, s': State) {
    || (exists c :: Fill(s, s', c)) || (exists c :: Die(s, s', c)) || (exists g, i :: Pick(s, s', g, i))
    || (exists g, r :: Test(s, s', g, r)) || (exists g :: Count(s, s', g)) || (exists r, c, ok :: Dial(s, s', r, c, ok))
    || (exists r :: Commit(s, s', r)) || Destroy(s, s')
  }

  ghost predicate Run(tr: seq<State>) {
    && |tr| > 0 && Init(tr[0])
    && forall i, j :: 0 <= i && i + 1 == j < |tr| ==> Next(tr[i], tr[j])
  }

  // --- Invariant ---------------------------------------------------------------------------

  predicate Once(slots: seq<nat>) { forall i, j :: 0 <= i < j < |slots| ==> slots[i] != slots[j] }

  ghost predicate SlotsOk(s: State) {
    && Once(s.slots) && |s.slots| <= s.size
    && (forall i :: 0 <= i < |s.slots| ==> s.slots[i] in s.conns && s.conns[s.slots[i]].id == i + 1)
    && (s.shutdown ==> Ready(s) && forall i :: 0 <= i < |s.slots| ==> s.conns[s.slots[i]].closed)
    && (s.pending.Some? ==>
          s.pending.value in s.conns && s.pending.value !in s.slots && !s.conns[s.pending.value].closed)
    && (s.pending.Some? ==> !Ready(s))
  }

  ghost predicate InFlight(s: State, c: nat) {
    s.pending == Some(c) || exists r :: r in s.replacers && s.replacers[r].Holding? && s.replacers[r].new' == c
  }

  ghost predicate Accounted(s: State, c: nat) {
    c in s.slots || InFlight(s, c) || (c in s.conns && s.conns[c].closed)
  }

  ghost predicate AllAccounted(s: State) {
    forall c {:trigger Accounted(s, c)} :: c in s.conns ==> Accounted(s, c)
  }

  // A connection that has been in a slot: it still is, or it was replaced.
  ghost predicate WasSlotted(s: State, c: nat) {
    c in s.conns && (c in s.slots || c in s.replacedBy)
  }

  ghost predicate ReplacerOk(s: State, x: Replacer) {
    && WasSlotted(s, x.old')
    && (x.Holding? ==>
          x.new' in s.conns && !WasSlotted(s, x.new') && s.pending != Some(x.new') && !s.conns[x.new'].closed)
    && (x.Ended? && (x.how == Installed || x.how == Late) ==> x.old' in s.replacedBy)
  }

  ghost predicate ReplacersOk(s: State) {
    forall r {:trigger ReplacerOk(s, s.replacers[r])} :: r in s.replacers ==> ReplacerOk(s, s.replacers[r])
  }

  // Two replacements hold different new connections, and never both installed for the same old one.
  predicate Apart(x: Replacer, y: Replacer) {
    && (x.Holding? && y.Holding? ==> x.new' != y.new')
    && (x.Ended? && y.Ended? && x.how == Installed && y.how == Installed ==> x.old' != y.old')
  }

  ghost predicate AllApart(replacers: map<nat, Replacer>) {
    forall r, q {:trigger Apart(replacers[r], replacers[q])} ::
      r in replacers && q in replacers && r != q ==> Apart(replacers[r], replacers[q])
  }

  ghost predicate GettersOk(s: State) {
    forall g {:trigger WasSlotted(s, s.getters[g].conn)} :: g in s.getters ==> WasSlotted(s, s.getters[g].conn)
  }

  // Replaced connections are out of the slots for good, each replaced once.
  ghost predicate InstallsOk(s: State) {
    && |s.replacedBy| == s.installs
    && forall o :: o in s.replacedBy ==> o in s.conns && o !in s.slots && s.pending != Some(o) && s.conns[o].closed
  }

  // The callers between Use and Done.
  function Users(getters: map<nat, Getter>, c: nat): set<nat> {
    set g | g in getters && getters[g] == Using(c)
  }

  ghost predicate LoadsOk(s: State) {
    forall c {:trigger Users(s.getters, c)} :: c in s.conns ==> s.conns[c].load == |Users(s.getters, c)| % UINT32
  }

  ghost predicate Inv(s: State) {
    SlotsOk(s) && AllAccounted(s) && ReplacersOk(s) && AllApart(s.replacers) && GettersOk(s) && InstallsOk(s)
  }

  // --- Preservation ---------------------------------------------------------------------------

  // Nothing is forgotten: connections, closings and past slots only accumulate.
  ghost predicate Grows(s: State, s': State) {
    && (forall c :: c in s.conns ==> c in s'.conns && (s.conns[c].closed ==> s'.conns[c].closed))
    && (forall c :: c in s.replacedBy ==> c in s'.replacedBy)
    && (forall c :: c in s.slots ==> c in s'.slots || c in s'.replacedBy)
  }

  lemma WasSlottedGrows(s: State, s': State, c: nat)
    requires Grows(s, s') && WasSlotted(s, c)
    ensures WasSlotted(s', c)
  {
  }

  lemma GettersFrame(s: State, s': State, changed: set<nat>)
    requires GettersOk(s) && Grows(s, s')
    requires forall h :: h in s'.getters && h !in changed ==> h in s.getters && s'.getters[h] == s.getters[h]
    requires forall h :: h in s'.getters && h in changed ==> WasSlotted(s', s'.getters[h].conn)
    ensures GettersOk(s')
  {
    forall h | h in s'.getters ensures WasSlotted(s', s'.getters[h].conn) {
      if h !in changed {
        assert WasSlotted(s, s.getters[h].conn);
        WasSlottedGrows(s, s', s.getters[h].conn);
      }
    }
  }

  lemma AccountedFrame(s: State, s': State, c: nat, r: nat)
    requires Accounted(s, c) && Grows(s, s') && c in s.conns
    requires s.pending == Some(c) ==> Accounted(s', c)
    requires forall q :: q in s.replacers && q != r ==> q in s'.replacers && s'.replacers[q] == s.replacers[q]
    requires r in s.replacers && s.replacers[r].Holding? && s.replacers[r].new' == c ==> Accounted(s', c)
    requires c in s.slots ==> c in s'.slots || (c in s'.conns && s'.conns[c].closed)
    ensures Accounted(s', c)
  {
    if InFlight(s, c) && s.pending != Some(c) {
      var q :| q in s.replacers && s.replacers[q].Holding? && s.replacers[q].new' == c;
      if q != r { assert q in s'.replacers && s'.replacers[q].Holding? && s'.replacers[q].new' == c; }
    }
  }

  lemma FillSlots(s: State, s': State, c: nat)
    requires SlotsOk(s) && InstallsOk(s) && Fill(s, s', c)
    ensures SlotsOk(s') && InstallsOk(s') && Grows(s, s') && forall d :: d in s.slots ==> d in s'.slots
  {
  }

  lemma FillAccounted(s: State, s': State, c: nat)
    requires AllAccounted(s) && Fill(s, s', c) && Grows(s, s') && forall d :: d in s.slots ==> d in s'.slots
    ensures AllAccounted(s')
  {
    if s.pending.Some? { assert s'.slots[|s.slots|] == s.pending.value; }
    forall d | d in s'.conns ensures Accounted(s', d) {
      if d in s.conns {
        assert Accounted(s, d);
        AccountedAny(s, s', d);
      }
    }
  }

  lemma FillInv(s: State, s': State, c: nat)
    requires Inv(s) && Fill(s, s', c)
    ensures Inv(s')
  {
    FillSlots(s, s', c);
    FillAccounted(s, s', c);
    GettersFrame(s, s', {});
    FillReplacers(s, s', c);
  }

  lemma FillReplacers(s: State, s': State, c: nat)
    requires ReplacersOk(s) && SlotsOk(s) && Fill(s, s', c)
    ensures ReplacersOk(s')
  {
    forall q | q in s'.replacers ensures ReplacerOk(s', s'.replacers[q]) { assert ReplacerOk(s, s.replacers[q]); }
  }

  lemma AccountedAny(s: State, s': State, c: nat)
    requires Accounted(s, c) && Grows(s, s') && s'.replacers == s.replacers && c in s.conns
    requires s.pending == Some(c) ==> Accounted(s', c)
    requires forall d :: d in s.slots ==> d in s'.slots
    ensures Accounted(s', c)
  {
    if InFlight(s, c) && s.pending != Some(c) {
      var q :| q in s.replacers && s.replacers[q].Holding? && s.replacers[q].new' == c;
      assert q in s'.replacers && s'.replacers[q].Holding? && s'.replacers[q].new' == c;
    }
  }

  // Steps that leave the replacers alone and take nothing out of the slots.
  lemma QuietStep(s: State, s': State)
    requires Inv(s) && Grows(s, s') && s'.replacers == s.replacers && s'.replacedBy == s.replacedBy
    requires s'.installs == s.installs
    requires s'.slots == s.slots && s'.pending == s.pending && s'.conns.Keys == s.conns.Keys && SlotsOk(s')
    requires forall c :: c in s.conns && c !in s.slots ==> s'.conns[c].closed == s.conns[c].closed
    ensures AllAccounted(s') && ReplacersOk(s') && AllApart(s'.replacers) && InstallsOk(s')
  {
    forall d | d in s'.conns ensures Accounted(s', d) {
      assert Accounted(s, d);
      AccountedFrame(s, s', d, 0);
    }
    forall q | q in s'.replacers ensures ReplacerOk(s', s'.replacers[q]) { assert ReplacerOk(s, s.replacers[q]); }
  }

  lemma DieInv(s: State, s': State, c: nat)
    requires Inv(s) && Die(s, s', c)
    ensures Inv(s')
  {
    QuietStep(s, s');
    GettersFrame(s, s', {});
  }

  lemma PickInv(s: State, s': State, g: nat, i: nat)
    requires Inv(s) && Pick(s, s', g, i)
    ensures Inv(s')
  {
    QuietStep(s, s');
    GettersFrame(s, s', {g});
  }

  lemma CountSlots(s: State, s': State, g: nat)
    requires SlotsOk(s) && Count(s, s', g)
    ensures SlotsOk(s') && Grows(s, s') && s'.conns.Keys == s.conns.Keys
    ensures forall c :: c in s.conns ==> s'.conns[c].closed == s.conns[c].closed
  {
  }

  lemma CountInv(s: State, s': State, g: nat)
    requires Inv(s) && Count(s, s', g)
    ensures Inv(s')
  {
    CountSlots(s, s', g);
    QuietStep(s, s');
    assert WasSlotted(s, s.getters[g].conn);
    WasSlottedGrows(s, s', s.getters[g].conn);
    GettersFrame(s, s', {g});
  }

  lemma DestroyInv(s: State, s': State)
    requires Inv(s) && Destroy(s, s')
    ensures Inv(s')
  {
    QuietStep(s, s');
    GettersFrame(s, s', {});
  }

  lemma ApartFrame(replacers: map<nat, Replacer>, r: nat, x: Replacer)
    requires AllApart(replacers)
    requires forall q :: q in replacers && q != r ==> Apart(x, replacers[q]) && Apart(replacers[q], x)
    ensures AllApart(replacers[r := x])
  {
    var after := replacers[r := x];
    forall p, q {:trigger Apart(after[p], after[q])} | p in after && q in after && p != q
      ensures Apart(after[p], after[q])
    {
      if p != r && q != r { assert Apart(replacers[p], replacers[q]); }
    }
  }

  lemma TestReplacers(s: State, s': State, g: nat, r: nat)
    requires ReplacersOk(s) && AllApart(s.replacers) && GettersOk(s) && Test(s, s', g, r)
    ensures ReplacersOk(s') && AllApart(s'.replacers) && Grows(s, s')
  {
    var c := s.getters[g].conn;
    assert WasSlotted(s, c);
    if s.conns[c].dead { ApartFrame(s.replacers, r, Dialing(c)); }
    forall q | q in s'.replacers ensures ReplacerOk(s', s'.replacers[q]) {
      if q in s.replacers { assert ReplacerOk(s, s.replacers[q]); }
    }
  }

  lemma TestInv(s: State, s': State, g: nat, r: nat)
    requires Inv(s) && Test(s, s', g, r)
    ensures Inv(s')
  {
    TestReplacers(s, s', g, r);
    TestAccounted(s, s', g, r);
    assert WasSlotted(s, s.getters[g].conn);
    WasSlottedGrows(s, s', s.getters[g].conn);
    GettersFrame(s, s', {g});
  }

  lemma TestAccounted(s: State, s': State, g: nat, r: nat)
    requires AllAccounted(s) && Test(s, s', g, r)
    ensures AllAccounted(s')
  {
    forall d | d in s'.conns ensures Accounted(s', d) {
      assert Accounted(s, d);
      AccountedFrame(s, s', d, r);
    }
  }

  lemma DialReplacers(s: State, s': State, r: nat, c: nat, ok: bool)
    requires ReplacersOk(s) && AllApart(s.replacers) && Dial(s, s', r, c, ok)
    requires c !in s.replacedBy && c !in s.slots && s.pending != Some(c)
    ensures ReplacersOk(s') && AllApart(s'.replacers)
  {
    forall q | q in s.replacers && q != r
      ensures Apart(s'.replacers[r], s.replacers[q]) && Apart(s.replacers[q], s'.replacers[r])
    {
      assert ReplacerOk(s, s.replacers[q]);
    }
    ApartFrame(s.replacers, r, s'.replacers[r]);
    forall q | q in s'.replacers ensures ReplacerOk(s', s'.replacers[q]) { assert ReplacerOk(s, s.replacers[q]); }
  }

  lemma DialSlots(s: State, s': State, r: nat, c: nat, ok: bool)
    requires SlotsOk(s) && InstallsOk(s) && Dial(s, s', r, c, ok)
    ensures SlotsOk(s') && InstallsOk(s') && Grows(s, s')
    ensures c !in s.replacedBy && c !in s.slots && s.pending != Some(c)
  {
  }

  lemma DialInv(s: State, s': State, r: nat, c: nat, ok: bool)
    requires Inv(s) && Dial(s, s', r, c, ok)
    ensures Inv(s')
  {
    DialSlots(s, s', r, c, ok);
    DialReplacers(s, s', r, c, ok);
    DialAccounted(s, s', r, c, ok);
    GettersFrame(s, s', {});
  }

  lemma DialAccounted(s: State, s': State, r: nat, c: nat, ok: bool)
    requires AllAccounted(s) && Dial(s, s', r, c, ok)
    ensures AllAccounted(s')
  {
    forall d | d in s'.conns ensures Accounted(s', d) {
      if d in s.conns {
        assert Accounted(s, d);
        AccountedFrame(s, s', d, r);
      } else {
        assert r in s'.replacers && s'.replacers[r].Holding? && s'.replacers[r].new' == d;
      }
    }
  }

  // A replacement that comes too late, or after Destroy, only closes what it dialled.
  lemma CommitLateInv(s: State, s': State, r: nat)
    requires Inv(s) && Commit(s, s', r) && (s.shutdown || s.replacers[r].old' !in s.slots)
    ensures Inv(s')
  {
    assert ReplacerOk(s, s.replacers[r]);
    CommitLateSlots(s, s', r);
    GettersFrame(s, s', {});
    ApartFrame(s.replacers, r, s'.replacers[r]);
    CommitLateAccounted(s, s', r);
    forall q | q in s'.replacers ensures ReplacerOk(s', s'.replacers[q]) {
      assert ReplacerOk(s, s.replacers[q]);
      if q != r { assert Apart(s.replacers[r], s.replacers[q]); }
    }
  }

  lemma CommitLateSlots(s: State, s': State, r: nat)
    requires SlotsOk(s) && InstallsOk(s) && Commit(s, s', r) && (s.shutdown || s.replacers[r].old' !in s.slots)
    requires ReplacerOk(s, s.replacers[r])
    ensures SlotsOk(s') && InstallsOk(s') && Grows(s, s')
  {
  }

  lemma CommitLateAccounted(s: State, s': State, r: nat)
    requires AllAccounted(s) && Commit(s, s', r) && (s.shutdown || s.replacers[r].old' !in s.slots) && Grows(s, s')
    ensures AllAccounted(s')
  {
    forall d | d in s'.conns ensures Accounted(s', d) {
      assert Accounted(s, d);
      AccountedFrame(s, s', d, r);
    }
  }

  // A replacement that finds its connection in slot `i`.
  ghost predicate Hit(s: State, s': State, r: nat, i: nat) {
    && Commit(s, s', r) && !s.shutdown && s.replacers[r].old' in s.slots
    && i < |s.slots| && s.slots[i] == s.replacers[r].old' && s'.slots == s.slots[i := s.replacers[r].new']
  }

  lemma CommitHit(s: State, s': State, r: nat) returns (i: nat)
    requires SlotsOk(s) && Commit(s, s', r) && !s.shutdown && s.replacers[r].old' in s.slots
    ensures Hit(s, s', r, i)
  {
    var o, c := s.replacers[r].old', s.replacers[r].new';
    i :| 0 <= i < |s.slots| && s.slots[i] == o;
    ReplacedAt(s.slots, o, c, i);
  }

  lemma CommitGrows(s: State, s': State, r: nat, i: nat)
    requires Hit(s, s', r, i)
    ensures Grows(s, s')
  {
    forall d | d in s.slots ensures d in s'.slots || d in s'.replacedBy {
      var j :| 0 <= j < |s.slots| && s.slots[j] == d;
      if j != i { assert s'.slots[j] == d; }
    }
  }

  lemma CommitSlots(s: State, s': State, r: nat, i: nat)
    requires Hit(s, s', r, i) && SlotsOk(s) && ReplacerOk(s, s.replacers[r])
    ensures SlotsOk(s')
  {
    var o, c := s.replacers[r].old', s.replacers[r].new';
    assert c !in s.slots && c != o;
    forall j | 0 <= j < |s'.slots| ensures s'.slots[j] in s'.conns && s'.conns[s'.slots[j]].id == j + 1 {
      assert s.slots[j] in s.conns && s.conns[s.slots[j]].id == j + 1;
    }
    CommitOnce(s.slots, i, c);
    if s.pending.Some? { assert forall j :: 0 <= j < |s.slots| ==> s.slots[j] != s.pending.value; }
  }

  lemma CommitOnce(slots: seq<nat>, i: nat, c: nat)
    requires Once(slots) && i < |slots| && c !in slots
    ensures Once(slots[i := c])
  {
  }

  lemma CommitInstalls(s: State, s': State, r: nat, i: nat)
    requires Hit(s, s', r, i) && InstallsOk(s) && SlotsOk(s) && ReplacerOk(s, s.replacers[r])
    ensures InstallsOk(s')
  {
    var o, c := s.replacers[r].old', s.replacers[r].new';
    assert o !in s.replacedBy;
    OneMore(s.replacedBy, o, c);
    forall d | d in s'.replacedBy
      ensures d in s'.conns && d !in s'.slots && s'.pending != Some(d) && s'.conns[d].closed
    {
      GoneFromSlots(s.slots, i, c, d);
    }
  }

  lemma OneMore(m: map<nat, nat>, o: nat, c: nat)
    requires o !in m
    ensures |m[o := c]| == |m| + 1
  {
    assert m[o := c].Keys == m.Keys + {o};
  }

  lemma GoneFromSlots(slots: seq<nat>, i: nat, c: nat, d: nat)
    requires Once(slots) && i < |slots| && d != c && (d == slots[i] || d !in slots)
    ensures d !in slots[i := c]
  {
  }

  lemma CommitApart(s: State, s': State, r: nat, i: nat)
    requires ReplacersOk(s) && AllApart(s.replacers) && InstallsOk(s) && Hit(s, s', r, i)
    ensures AllApart(s'.replacers)
  {
    var x := s'.replacers[r];
    forall q | q in s.replacers && q != r ensures Apart(x, s.replacers[q]) && Apart(s.replacers[q], x) {
      assert ReplacerOk(s, s.replacers[q]);
    }
    ApartFrame(s.replacers, r, x);
  }

  lemma CommitInv(s: State, s': State, r: nat)
    requires Inv(s) && Commit(s, s', r)
    ensures Inv(s')
  {
    if s.shutdown || s.replacers[r].old' !in s.slots {
      CommitLateInv(s, s', r);
    } else {
      var i := CommitHit(s, s', r);
      assert ReplacerOk(s, s.replacers[r]);
      CommitGrows(s, s', r, i);
      CommitSlots(s, s', r, i);
      CommitInstalls(s, s', r, i);
      CommitApart(s, s', r, i);
      CommitReplacers(s, s', r, i);
      CommitAccounted(s, s', r, i);
      GettersFrame(s, s', {});
    }
  }

  lemma CommitAccounted(s: State, s': State, r: nat, i: nat)
    requires AllAccounted(s) && Hit(s, s', r, i) && Grows(s, s')
    ensures AllAccounted(s')
  {
    assert s'.slots[i] == s.replacers[r].new';
    forall d | d in s'.conns ensures Accounted(s', d) {
      assert Accounted(s, d);
      if d in s.slots && d != s.slots[i] {
        var j :| 0 <= j < |s.slots| && s.slots[j] == d;
        assert s'.slots[j] == d;
      }
      AccountedFrame(s, s', d, r);
    }
  }

  lemma CommitReplacers(s: State, s': State, r: nat, i: nat)
    requires ReplacersOk(s) && AllApart(s.replacers) && Grows(s, s') && Hit(s, s', r, i)
    ensures ReplacersOk(s')
  {
    forall q | q in s'.replacers ensures ReplacerOk(s', s'.replacers[q]) { CommitReplacer(s, s', r, i, q); }
  }

  lemma CommitReplacer(s: State, s': State, r: nat, i: nat, q: nat)
    requires ReplacersOk(s) && AllApart(s.replacers) && Grows(s, s') && Hit(s, s', r, i) && q in s.replacers
    ensures ReplacerOk(s', s'.replacers[q])
  {
    assert ReplacerOk(s, s.replacers[q]) && ReplacerOk(s, s.replacers[r]);
    WasSlottedGrows(s, s', s.replacers[q].old');
    if q != r { assert Apart(s.replacers[r], s.replacers[q]); }
  }

  // --- Loads -------------------------------------------------------------------------------------

  lemma UsersUpdate(getters: map<nat, Getter>, g: nat, x: Getter, c: nat)
    ensures Users(getters[g := x], c) == Users(getters, c) - {g} + if x == Using(c) then {g} else {}
  {
  }

  lemma RaisedCounts(n: nat)
    ensures Raised(n % UINT32) == (n + 1) % UINT32 && (n > 0 ==> Lowered(n % UINT32) == (n - 1) % UINT32)
  {
    ModAdd(n, 1);
    ModAdd(n, UINT32 - 1);
  }

  // A step of a caller that leaves the loads alone, and is not inside Use and Done before or after.
  lemma UncountedLoads(s: State, s': State, g: nat, x: Getter)
    requires LoadsOk(s) && s'.conns.Keys == s.conns.Keys && s'.getters == s.getters[g := x] && !x.Using?
    requires g in s.getters ==> !s.getters[g].Using?
    requires forall c :: c in s.conns ==> s'.conns[c].load == s.conns[c].load
    ensures LoadsOk(s')
  {
    forall c | c in s'.conns ensures s'.conns[c].load == |Users(s'.getters, c)| % UINT32 {
      UsersUpdate(s.getters, g, x, c);
      assert Users(s'.getters, c) == Users(s.getters, c);
    }
  }

  lemma UsersEnter(getters: map<nat, Getter>, g: nat, c: nat)
    requires g in getters && getters[g] == Entering(c)
    ensures |Users(getters[g := Using(c)], c)| == |Users(getters, c)| + 1
  {
    assert Users(getters[g := Using(c)], c) == Users(getters, c) + {g};
  }

  lemma UsersLeave(getters: map<nat, Getter>, g: nat, c: nat)
    requires g in getters && getters[g] == Using(c)
    ensures |Users(getters[g := Left(c)], c)| == |Users(getters, c)| - 1
  {
    assert Users(getters[g := Left(c)], c) == Users(getters, c) - {g};
    assert g in Users(getters, c);
  }

  lemma CountLoads(s: State, s': State, g: nat)
    requires LoadsOk(s) && Count(s, s', g)
    ensures LoadsOk(s')
  {
    forall c | c in s'.conns ensures s'.conns[c].load == |Users(s'.getters, c)| % UINT32 {
      CountLoadAt(s, s', g, c);
    }
  }

  lemma CountLoadAt(s: State, s': State, g: nat, c: nat)
    requires Count(s, s', g) && c in s.conns && s.conns[c].load == |Users(s.getters, c)| % UINT32
    ensures s'.conns[c].load == |Users(s'.getters, c)| % UINT32
  {
    RaisedCounts(|Users(s.getters, c)|);
    if c != s.getters[g].conn {
      assert Users(s'.getters, c) == Users(s.getters, c);
    } else if s.getters[g].Entering? {
      UsersEnter(s.getters, g, c);
    } else {
      UsersLeave(s.getters, g, c);
    }
  }

  // Steps of everybody else: connections keep their load, and new ones have none and no user.
  lemma OtherLoads(s: State, s': State)
    requires LoadsOk(s) && GettersOk(s) && s'.getters == s.getters
    requires forall c :: c in s'.conns ==> s'.conns[c].load == if c in s.conns then s.conns[c].load else 0
    ensures LoadsOk(s')
  {
    forall c | c in s'.conns ensures s'.conns[c].load == |Users(s'.getters, c)| % UINT32 {
      if c !in s.conns { NoUsers(s, c); }
    }
  }

  lemma NoUsers(s: State, c: nat)
    requires GettersOk(s) && c !in s.conns
    ensures Users(s.getters, c) == {}
  {
    forall g | g in s.getters ensures s.getters[g].conn in s.conns { assert WasSlotted(s, s.getters[g].conn); }
  }

  lemma FillLoads(s: State, s': State, c: nat)
    requires LoadsOk(s) && GettersOk(s) && (Fill(s, s', c) || Die(s, s', c))
    ensures LoadsOk(s')
  {
    OtherLoads(s, s');
  }

  lemma ReplaceLoads(s: State, s': State, r: nat, c: nat, ok: bool)
    requires LoadsOk(s) && GettersOk(s) && (Dial(s, s', r, c, ok) || Commit(s, s', r))
    ensures LoadsOk(s')
  {
    OtherLoads(s, s');
  }

  lemma DestroyLoads(s: State, s': State)
    requires LoadsOk(s) && GettersOk(s) && Destroy(s, s')
    ensures LoadsOk(s')
  {
    OtherLoads(s, s');
  }

  lemma PickLoads(s: State, s': State, g: nat, i: nat, r: nat)
    requires LoadsOk(s) && (Pick(s, s', g, i) || Test(s, s', g, r))
    ensures LoadsOk(s')
  {
    UncountedLoads(s, s', g, s'.getters[g]);
  }

  lemma NextLoads(s: State, s': State)
    requires LoadsOk(s) && GettersOk(s) && Next(s, s')
    ensures LoadsOk(s')
  {
    if c :| Fill(s, s', c) { FillLoads(s, s', c); }
    else if c :| Die(s, s', c) { FillLoads(s, s', c); }
    else if g, i :| Pick(s, s', g, i) { PickLoads(s, s', g, i, 0); }
    else if g, r :| Test(s, s', g, r) { PickLoads(s, s', g, 0, r); }
    else if g :| Count(s, s', g) { CountLoads(s, s', g); }
    else if r, c, ok :| Dial(s, s', r, c, ok) { ReplaceLoads(s, s', r, c, ok); }
    else if r :| Commit(s, s', r) { ReplaceLoads(s, s', r, 0, false); }
    else { DestroyLoads(s, s'); }
  }

  lemma NextInv(s: State, s': State)
    requires Inv(s) && Next(s, s')
    ensures Inv(s')
  {
    if c :| Fill(s, s', c) { FillInv(s, s', c); }
    else if c :| Die(s, s', c) { DieInv(s, s', c); }
    else if g, i :| Pick(s, s', g, i) { PickInv(s, s', g, i); }
    else if g, r :| Test(s, s', g, r) { TestInv(s, s', g, r); }
    else if g :| Count(s, s', g) { CountInv(s, s', g); }
    else if r, c, ok :| Dial(s, s', r, c, ok) { DialInv(s, s', r, c, ok); }
    else if r :| Commit(s, s', r) { CommitInv(s, s', r); }
    else { DestroyInv(s, s'); }
  }

  lemma {:induction false} RunInv(tr: seq<State>, i: nat)
    requires Run(tr) && i < |tr|
    ensures Inv(tr[i]) && LoadsOk(tr[i])
  {
    if i > 0 {
      RunInv(tr, i - 1);
      StepOf(tr, i);
      NextInv(tr[i - 1], tr[i]);
      NextLoads(tr[i - 1], tr[i]);
    }
  }

  lemma StepOf(tr: seq<State>, i: nat)
    requires Run(tr) && 0 < i < |tr|
    ensures Next(tr[i - 1], tr[i])
  {
  }

  // --- The theorems --------------------------------------------------------------------------------

  /** Slot i always holds the connection with ID i + 1, and no connection twice. */
  lemma SlotIds(tr: seq<State>, k: nat, i: nat)
    requires Run(tr) && k < |tr| && i < |tr[k].slots|
    ensures tr[k].slots[i] in tr[k].conns && tr[k].conns[tr[k].slots[i]].id == i + 1
    ensures forall j :: 0 <= j < |tr[k].slots| && j != i ==> tr[k].slots[j] != tr[k].slots[i]
  {
    RunInv(tr, k);
  }

  /** Racing replacements of one dead connection install exactly one: two that both installed are the same, and
      once one has installed or come too late the connection is replaced and in no slot. */
  lemma OneReplacement(tr: seq<State>, k: nat, r: nat, q: nat)
    requires Run(tr) && k < |tr| && r in tr[k].replacers && q in tr[k].replacers
    ensures var x, y := tr[k].replacers[r], tr[k].replacers[q];
            x.Ended? && y.Ended? && x.how == Installed && y.how == Installed && x.old' == y.old' ==> r == q
    ensures var x := tr[k].replacers[r];
            x.Ended? && (x.how == Installed || x.how == Late) ==> x.old' in tr[k].replacedBy && x.old' !in tr[k].slots
    ensures |tr[k].replacedBy| == tr[k].installs
  {
    RunInv(tr, k);
    assert ReplacerOk(tr[k], tr[k].replacers[r]);
    if r != q { assert Apart(tr[k].replacers[r], tr[k].replacers[q]); }
  }

  /** A connection's 32-bit load is always the number of callers between Use and Done on it, modulo 2^32: no caller
      is counted on a connection it does not hold, through replacement and destruction. */
  lemma LoadCountsUsers(tr: seq<State>, k: nat, c: nat)
    requires Run(tr) && k < |tr| && c in tr[k].conns
    ensures tr[k].conns[c].load == |Users(tr[k].getters, c)| % UINT32
  {
    RunInv(tr, k);
  }

  /** Every connection ever dialled is in a slot, in flight or closed. */
  lemma NothingLeaks(tr: seq<State>, k: nat, c: nat)
    requires Run(tr) && k < |tr| && c in tr[k].conns
    ensures c in tr[k].slots || InFlight(tr[k], c) || tr[k].conns[c].closed
  {
    RunInv(tr, k);
    assert Accounted(tr[k], c);
  }

  /** Once Destroy has run and no replacement is in flight, every connection is closed. */
  lemma DestroyClosesAll(tr: seq<State>, k: nat, c: nat)
    requires Run(tr) && k < |tr| && tr[k].shutdown && c in tr[k].conns
    requires forall r :: r in tr[k].replacers ==> !tr[k].replacers[r].Holding?
    ensures tr[k].conns[c].closed
  {
    RunInv(tr, k);
    assert Accounted(tr[k], c);
  }
}
