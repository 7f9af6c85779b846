/**
 * pkg/driver/controller_modify_volume.go: modify requests for one volume that arrive close
 * together are merged and executed once.
 */
module ModifyRequests {
  // What a request asks for; zero and empty mean "leave it".
  datatype Fields = Fields(newSize: int, volumeType: string)

  predicate Conflict(merged: Fields, r: Fields) {
    || (r.newSize != 0 && merged.newSize != 0 && r.newSize != merged.newSize)
    || (r.volumeType != "" && merged.volumeType != "" && r.volumeType != merged.volumeType)
  }

  function Merged(merged: Fields, r: Fields): Fields {
    Fields(if r.newSize != 0 then r.newSize else merged.newSize,
           if r.volumeType != "" then r.volumeType else merged.volumeType)
  }

  // m says everything r says.
  predicate Covers(m: Fields, r: Fields) {
    && (r.newSize != 0 ==> m.newSize == r.newSize)
    && (r.volumeType != "" ==> m.volumeType == r.volumeType)
  }

  // m is the join of rs: it covers them all, and says nothing none of them says.
  ghost predicate IsJoin(m: Fields, rs: seq<Fields>) {
    && (forall i :: 0 <= i < |rs| ==> Covers(m, rs[i]))
    && (m.newSize != 0 ==> exists i :: 0 <= i < |rs| && rs[i].newSize == m.newSize)
    && (m.volumeType != "" ==> exists i :: 0 <= i < |rs| && rs[i].volumeType == m.volumeType)
  }

  // Who conflicts: only a request that sets a field the merge has set differently. So one that the
  // merge covers already is accepted and changes nothing, and one without a common field is accepted.
  lemma WhoConflicts(m: Fields, r: Fields)
    ensures Conflict(m, r) <==> (r.newSize != 0 && m.newSize !in {0, r.newSize}) ||
                                (r.volumeType != "" && m.volumeType !in {"", r.volumeType})
    ensures Covers(m, r) ==> !Conflict(m, r) && Merged(m, r) == m
    ensures (m.newSize == 0 || r.newSize == 0) && (m.volumeType == "" || r.volumeType == "") ==> !Conflict(m, r)
    ensures Conflict(m, r) <==> Conflict(r, m)
  {
  }

  lemma MergeCovers(m: Fields, r: Fields, x: Fields)
    requires !Conflict(m, r)
    ensures Covers(Merged(m, r), r) && Covers(Merged(m, r), m)
    ensures Covers(m, x) ==> Covers(Merged(m, r), x)
    ensures Conflict(m, x) ==> Conflict(Merged(m, r), x)
  {
  }

  lemma MergeJoins(m: Fields, rs: seq<Fields>, r: Fields)
    requires IsJoin(m, rs) && !Conflict(m, r)
    ensures IsJoin(Merged(m, r), rs + [r])
  {
    var all, m' := rs + [r], Merged(m, r);
    assert all[|rs|] == r;
    if m'.newSize != 0 && r.newSize == 0 {
      var i :| 0 <= i < |rs| && rs[i].newSize == m.newSize;
      assert all[i].newSize == m'.newSize;
    }
    if m'.volumeType != "" && r.volumeType == "" {
      var i :| 0 <= i < |rs| && rs[i].volumeType == m.volumeType;
      assert all[i].volumeType == m'.volumeType;
    }
  }

  // The join does not depend on the order: merges of the same requests, in whatever order and
  // however often each, ask for the same.
  lemma JoinIsUnique(m: Fields, n: Fields, rs: seq<Fields>, qs: seq<Fields>)
    requires IsJoin(m, rs) && IsJoin(n, qs)
    requires forall r :: r in rs <==> r in qs
    ensures m == n
  {
    SmallerJoin(m, n, rs, qs);
    SmallerJoin(n, m, qs, rs);
  }

  lemma SmallerJoin(m: Fields, n: Fields, rs: seq<Fields>, qs: seq<Fields>)
    requires IsJoin(m, rs) && IsJoin(n, qs) && forall r :: r in rs ==> r in qs
    ensures Covers(n, m)
  {
    if m.newSize != 0 {
      var i :| 0 <= i < |rs| && rs[i].newSize == m.newSize;
      assert rs[i] in qs;
    }
    if m.volumeType != "" {
      var i :| 0 <= i < |rs| && rs[i].volumeType == m.volumeType;
      assert rs[i] in qs;
    }
  }

  // The handler's merged request after it has taken fs in that order, and whom it accepted.
  function Absorb(first: Fields, fs: seq<Fields>): Fields {
    if fs == [] then first
    else
      var m, f := Absorb(first, fs[..|fs| - 1]), fs[|fs| - 1];
      if Conflict(m, f) then m else Merged(m, f)
  }

  function Accepted(first: Fields, fs: seq<Fields>): seq<Fields> {
    if fs == [] then [first]
    else
      var n := |fs| - 1;
      Accepted(first, fs[..n]) + (if Conflict(Absorb(first, fs[..n]), fs[n]) then [] else [fs[n]])
  }

  // The answer each of them gets.
  function Verdicts(first: Fields, fs: seq<Fields>): seq<bool> {
    if fs == [] then []
    else
      var n := |fs| - 1;
      Verdicts(first, fs[..n]) + [!Conflict(Absorb(first, fs[..n]), fs[n])]
  }

  // However requests interleave, what is executed in the end is the join of the accepted ones.
  lemma {:induction false} AbsorbIsTheJoin(first: Fields, fs: seq<Fields>)
    ensures IsJoin(Absorb(first, fs), Accepted(first, fs))
  {
    if fs == [] {
      assert Accepted(first, fs)[0] == first;
    } else {
      var n := |fs| - 1;
      AbsorbIsTheJoin(first, fs[..n]);
      if Conflict(Absorb(first, fs[..n]), fs[n]) {
        assert Accepted(first, fs) == Accepted(first, fs[..n]);
      } else {
        MergeJoins(Absorb(first, fs[..n]), Accepted(first, fs[..n]), fs[n]);
      }
    }
  }

  // The merged request never loses a field it had, the first request's own fields included; so
  // whoever was accepted is covered in the end, and whoever was turned away still conflicts.
  lemma {:induction false} AbsorbOnlyGrows(first: Fields, fs: seq<Fields>, k: nat)
    requires k <= |fs|
    ensures Covers(Absorb(first, fs), Absorb(first, fs[..k]))
    ensures |Verdicts(first, fs)| == |fs|
    ensures k < |fs| ==> if Verdicts(first, fs)[k] then Covers(Absorb(first, fs), fs[k])
                         else Conflict(Absorb(first, fs), fs[k])
  {
    var n := |fs| - 1;
    if fs != [] {
      AbsorbOnlyGrows(first, fs[..n], if k < n then k else n);
    }
    if k == |fs| {
      assert fs[..k] == fs;
    } else if k < n {
      assert fs[..n][..k] == fs[..k];
    }
  }

  class ModifyVolumeRequest {
    var newSize: int
    var volumeType: string

    constructor (newSize: int, volumeType: string)
      ensures View() == Fields(newSize, volumeType)
    {
      this.newSize, this.volumeType := newSize, volumeType;
    }

    function View(): Fields
      reads this
    {
      Fields(newSize, volumeType)
    }
  }

  class ModifyVolumeRequestHandler {
    const volumeID: string
    // The first request itself, not a copy of it.
    const mergedRequest: ModifyVolumeRequest

    constructor (volumeID: string, request: ModifyVolumeRequest)
      ensures this.volumeID == volumeID && mergedRequest == request
    {
      this.volumeID, mergedRequest := volumeID, request;
    }

    method ValidateModifyVolumeRequest(r: ModifyVolumeRequest) returns (ok: bool)
      ensures ok == !Conflict(mergedRequest.View(), r.View())
      // Accepted exactly if each field is unset on one side, or the same on both.
      ensures ok <==>
                && (r.newSize == 0 || mergedRequest.newSize == 0 || r.newSize == mergedRequest.newSize)
                && (r.volumeType == "" || mergedRequest.volumeType == "" || r.volumeType == mergedRequest.volumeType)
    {
      if r.newSize != 0 && mergedRequest.newSize != 0 && r.newSize != mergedRequest.newSize {
        return false;
      }
      if r.volumeType != "" && mergedRequest.volumeType != "" && r.volumeType != mergedRequest.volumeType {
        return false;
      }
      return true;
    }

    method MergeModifyVolumeRequest(r: ModifyVolumeRequest)
      modifies mergedRequest
      ensures mergedRequest.View() == Merged(old(mergedRequest.View()), old(r.View()))
      ensures mergedRequest.newSize == if old(r.newSize) != 0 then old(r.newSize) else old(mergedRequest.newSize)
      ensures mergedRequest.volumeType ==
              if old(r.volumeType) != "" then old(r.volumeType) else old(mergedRequest.volumeType)
    {
      if r.newSize != 0 {
        mergedRequest.newSize := r.newSize;
      }
      if r.volumeType != "" {
        mergedRequest.volumeType := r.volumeType;
      }
    }

    method Process(r: ModifyVolumeRequest) returns (ok: bool)
      modifies mergedRequest
      ensures ok == !old(Conflict(mergedRequest.View(), r.View()))
      ensures mergedRequest.View() ==
              if ok then Merged(old(mergedRequest.View()), old(r.View())) else old(mergedRequest.View())
    {
      ok := ValidateModifyVolumeRequest(r);
      if ok {
        MergeModifyVolumeRequest(r);
      }
    }

    // Everything that reaches the channel until the drain ends, taken one by one.
    method ProcessModifyVolumeRequests(incoming: seq<ModifyVolumeRequest>, ghost fs: seq<Fields>)
        returns (verdicts: seq<bool>)
      requires mergedRequest !in incoming
      requires |fs| == |incoming| && forall k :: 0 <= k < |fs| ==> incoming[k].View() == fs[k]
      modifies mergedRequest
      ensures mergedRequest.View() == Absorb(old(mergedRequest.View()), fs)
      ensures verdicts == Verdicts(old(mergedRequest.View()), fs)
    {
      ghost var first := mergedRequest.View();
      verdicts := [];
      var i := 0;
      while i < |incoming|
        invariant 0 <= i <= |incoming|
        invariant forall k :: 0 <= k < |fs| ==> incoming[k].View() == fs[k]
        invariant mergedRequest.View() == Absorb(first, fs[..i])
        invariant verdicts == Verdicts(first, fs[..i])
      {
        assert fs[..i + 1][..i] == fs[..i];
        var ok := Process(incoming[i]);
        verdicts := verdicts + [ok];
        i := i + 1;
      }
      assert fs[..i] == fs;
    }
  }
}

/**
 * The same as a protocol: requesters and handlers of any number of volumes, one step at a
 * time. A requester looks its volume up in the handler map and either starts a handler or
 * sends itself to the one it found; the send is a rendezvous. A handler receives until its
 * timeout, takes itself out of the map, drains the senders that are waiting, executes once
 * and answers whoever it accepted and still listens.
 */
module CoalescingProtocol {
  import opened ModifyRequests

  type Rid = int
  type Hid = int

  datatype Response = Executed(h: Hid) | Refused(h: Hid)

  // Found a handler; blocked on its channel; selecting on the answer; answered; given up.
  datatype ReqPhase = Found(h: Hid) | Sending(h: Hid) | Listening | Answered(r: Response) | GaveUp

  // Who took a request, and as what.
  datatype Place = Nowhere | AcceptedBy(h: Hid, i: nat) | RejectedBy(h: Hid, i: nat)

  datatype Request = Request(volume: string, asked: Fields, phase: ReqPhase, place: Place)

  datatype Phase = Running | Draining | Refusing(r: Rid, draining: bool) | Answering(i: nat)

  // executed holds what was sent to the cloud, once per execution.
  datatype Handler = Handler(
    volume: string, merged: Fields, accepted: seq<Rid>, rejected: seq<Rid>, phase: Phase, executed: seq<Fields>)

  datatype State = State(requests: seq<Request>, handlers: seq<Handler>, registered: map<string, Hid>)

  const INIT := State([], [], map[])

  datatype Event =
    | Submit(volume: string, asked: Fields)
    | StartSend(r: Rid)
    | Receive(h: Hid, r: Rid)
    | Refuse(h: Hid)
    | Timeout(h: Hid)
    | Execute(h: Hid)
    | Respond(h: Hid, delivered: bool)
    | Cancel(r: Rid)

  predicate Request?(s: State, r: Rid) {
    0 <= r < |s.requests|
  }

  predicate Handler?(s: State, h: Hid) {
    0 <= h < |s.handlers|
  }

  function SetReq(s: State, r: Rid, q: Request): State
    requires Request?(s, r)
  {
    s.(requests := s.requests[r := q])
  }

  function SetHandler(s: State, h: Hid, x: Handler): State
    requires Handler?(s, h)
  {
    s.(handlers := s.handlers[h := x])
  }

  predicate NobodyWaits(s: State, h: Hid) {
    forall r :: 0 <= r < |s.requests| ==> s.requests[r].phase != Sending(h)
  }

  function Next(s: State, e: Event): State {
    match e
    // LoadOrStore: one atomic step on the map.
    case Submit(volume, asked) =>
      if volume in s.registered then
        s.(requests := s.requests + [Request(volume, asked, Found(s.registered[volume]), Nowhere)])
      else
        var r, h := |s.requests|, |s.handlers|;
        State(s.requests + [Request(volume, asked, Listening, AcceptedBy(h, 0))],
              s.handlers + [Handler(volume, asked, [r], [], Running, [])],
              s.registered[volume := h])
    case StartSend(r) =>
      if Request?(s, r) && s.requests[r].phase.Found? then
        SetReq(s, r, s.requests[r].(phase := Sending(s.requests[r].phase.h)))
      else s
    case Receive(h, r) =>
      if Handler?(s, h) && Request?(s, r) && (s.handlers[h].phase.Running? || s.handlers[h].phase.Draining?) &&
         s.requests[r].phase == Sending(h) then
        var x, q := s.handlers[h], s.requests[r];
        if Conflict(x.merged, q.asked) then
          SetHandler(SetReq(s, r, q.(phase := Listening, place := RejectedBy(h, |x.rejected|))), h,
                     x.(rejected := x.rejected + [r], phase := Refusing(r, x.phase.Draining?)))
        else
          SetHandler(SetReq(s, r, q.(phase := Listening, place := AcceptedBy(h, |x.accepted|))), h,
                     x.(accepted := x.accepted + [r], merged := Merged(x.merged, q.asked)))
      else s
    // The refusal is a rendezvous too: a requester that gave up blocks its handler for good.
    case Refuse(h) =>
      if Handler?(s, h) && s.handlers[h].phase.Refusing? && Request?(s, s.handlers[h].phase.r) &&
         s.requests[s.handlers[h].phase.r].phase == Listening then
        var x := s.handlers[h];
        var r := x.phase.r;
        SetHandler(SetReq(s, r, s.requests[r].(phase := Answered(Refused(h)))), h,
                   x.(phase := if x.phase.draining then Draining else Running))
      else s
    case Timeout(h) =>
      if Handler?(s, h) && s.handlers[h].phase.Running? then
        SetHandler(s, h, s.handlers[h].(phase := Draining)).(registered := s.registered - {s.handlers[h].volume})
      else s
    // The drain ends only when no sender is waiting.
    case Execute(h) =>
      if Handler?(s, h) && s.handlers[h].phase.Draining? && NobodyWaits(s, h) then
        var x := s.handlers[h];
        SetHandler(s, h, x.(phase := Answering(0), executed := x.executed + [x.merged]))
      else s
    // Answers that nobody is listening for are dropped.
    case Respond(h, delivered) =>
      if Handler?(s, h) && s.handlers[h].phase.Answering? && s.handlers[h].phase.i < |s.handlers[h].accepted| then
        var x := s.handlers[h];
        var r := x.accepted[x.phase.i];
        var s' := SetHandler(s, h, x.(phase := Answering(x.phase.i + 1)));
        if delivered && Request?(s, r) && s.requests[r].phase == Listening then
          SetReq(s', r, s.requests[r].(phase := Answered(Executed(h))))
        else s'
      else s
    case Cancel(r) =>
      if Request?(s, r) && s.requests[r].phase == Listening then SetReq(s, r, s.requests[r].(phase := GaveUp)) else s
  }

  function Run(events: seq<Event>): State {
    if events == [] then INIT else Next(Run(events[..|events| - 1]), events[|events| - 1])
  }

  // ----- The invariant -----

  // What the accepted requests of a handler ask for.
  function Asked(s: State, rids: seq<Rid>): (fs: seq<Fields>)
    ensures |fs| == |rids|
    ensures forall i :: 0 <= i < |rids| && Request?(s, rids[i]) ==> fs[i] == s.requests[rids[i]].asked
  {
    if rids == [] then []
    else
      var r := rids[|rids| - 1];
      Asked(s, rids[..|rids| - 1]) + [if Request?(s, r) then s.requests[r].asked else Fields(0, "")]
  }

  // Still in the map, and reachable for new requests.
  predicate Active(x: Handler) {
    x.phase.Running? || (x.phase.Refusing? && !x.phase.draining)
  }

  predicate AcceptedOk(s: State, h: Hid, i: int)
    requires Handler?(s, h) && 0 <= i < |s.handlers[h].accepted|
  {
    var r := s.handlers[h].accepted[i];
    Request?(s, r) && s.requests[r].place == AcceptedBy(h, i) && s.requests[r].volume == s.handlers[h].volume
  }

  predicate RejectedOk(s: State, h: Hid, i: int)
    requires Handler?(s, h) && 0 <= i < |s.handlers[h].rejected|
  {
    var r := s.handlers[h].rejected[i];
    && Request?(s, r) && s.requests[r].place == RejectedBy(h, i) && s.requests[r].volume == s.handlers[h].volume
    && Conflict(s.handlers[h].merged, s.requests[r].asked)
  }

  ghost predicate ListsOk(s: State, h: Hid)
    requires Handler?(s, h)
  {
    && s.handlers[h].accepted != []
    && (forall i :: 0 <= i < |s.handlers[h].accepted| ==> AcceptedOk(s, h, i))
    && (forall i :: 0 <= i < |s.handlers[h].rejected| ==> RejectedOk(s, h, i))
    && IsJoin(s.handlers[h].merged, Asked(s, s.handlers[h].accepted))
  }

  predicate PhaseOk(s: State, h: Hid)
    requires Handler?(s, h)
  {
    var x := s.handlers[h];
    && (Active(x) <==> x.volume in s.registered && s.registered[x.volume] == h)
    && (x.phase.Refusing? ==> x.rejected != [] && x.phase.r == x.rejected[|x.rejected| - 1])
    && x.executed == if x.phase.Answering? then [x.merged] else []
  }

  predicate Listed(rids: seq<Rid>, i: nat, r: Rid) {
    i < |rids| && rids[i] == r
  }

  predicate RequestOk(s: State, r: Rid)
    requires Request?(s, r)
  {
    var q := s.requests[r];
    && (q.phase.Found? || q.phase.Sending? ==>
          q.place.Nowhere? && Handler?(s, q.phase.h) && s.handlers[q.phase.h].volume == q.volume)
    && (!q.phase.Found? && !q.phase.Sending? ==> !q.place.Nowhere?)
    && (q.phase.Answered? && q.phase.r.Executed? ==>
          q.place.AcceptedBy? && q.place.h == q.phase.r.h && Handler?(s, q.place.h) &&
          s.handlers[q.place.h].phase.Answering? && q.place.i < s.handlers[q.place.h].phase.i)
    && (q.phase.Answered? && q.phase.r.Refused? ==> q.place.RejectedBy? && q.place.h == q.phase.r.h)
    && (q.place.AcceptedBy? ==> Handler?(s, q.place.h) && Listed(s.handlers[q.place.h].accepted, q.place.i, r))
    && (q.place.RejectedBy? ==> Handler?(s, q.place.h) && Listed(s.handlers[q.place.h].rejected, q.place.i, r))
  }

  predicate MapOk(s: State) {
    forall v :: v in s.registered ==> Handler?(s, s.registered[v]) && s.handlers[s.registered[v]].volume == v
  }

  ghost predicate Inv(s: State) {
    && (forall h :: Handler?(s, h) ==> ListsOk(s, h) && PhaseOk(s, h))
    && (forall r :: Request?(s, r) ==> RequestOk(s, r))
    && MapOk(s)
  }

  // ----- What one step may change -----

  predicate RequestMoves(q: Request, p: Request, e: Event, r: Rid) {
    && p.asked == q.asked && p.volume == q.volume
    && (p.place == q.place || (q.place.Nowhere? && e.Receive? && e.r == r && q.phase == Sending(e.h)))
    && (q.phase.Answered? || q.phase.GaveUp? ==> p == q)
  }

  lemma RequestStep(s: State, e: Event, r: Rid)
    requires Request?(s, r) && (s.requests[r].phase.Sending? ==> s.requests[r].place.Nowhere?)
    ensures Request?(Next(s, e), r)
    ensures RequestMoves(s.requests[r], Next(s, e).requests[r], e, r)
  {
  }

  predicate HandlerMoves(x: Handler, y: Handler) {
    && y.volume == x.volume && x.accepted <= y.accepted && x.rejected <= y.rejected
    && (x.phase.Answering? ==>
          y.phase.Answering? && x.phase.i <= y.phase.i &&
          y.accepted == x.accepted && y.rejected == x.rejected && y.merged == x.merged && y.executed == x.executed)
  }

  lemma HandlerStep(s: State, e: Event, h: Hid)
    requires Handler?(s, h)
    ensures Handler?(Next(s, e), h)
    ensures HandlerMoves(s.handlers[h], Next(s, e).handlers[h])
  {
  }

  lemma AskedStaysPut(s: State, e: Event, h: Hid)
    requires Inv(s) && Handler?(s, h)
    ensures Asked(Next(s, e), s.handlers[h].accepted) == Asked(s, s.handlers[h].accepted)
  {
    var rids := s.handlers[h].accepted;
    forall i | 0 <= i < |rids|
      ensures Asked(Next(s, e), rids)[i] == Asked(s, rids)[i]
    {
      assert AcceptedOk(s, h, i);
      RequestStep(s, e, rids[i]);
    }
  }

  // Requests a handler has in its lists stay as they are.
  lemma ListsStayPut(s: State, e: Event, h: Hid)
    requires Inv(s) && Handler?(s, h) && Handler?(Next(s, e), h)
    requires s.handlers[h].merged == Next(s, e).handlers[h].merged
    requires s.handlers[h].volume == Next(s, e).handlers[h].volume
    requires s.handlers[h].accepted == Next(s, e).handlers[h].accepted
    requires s.handlers[h].rejected == Next(s, e).handlers[h].rejected
    ensures ListsOk(Next(s, e), h)
  {
    var s' := Next(s, e);
    AskedStaysPut(s, e, h);
    forall i | 0 <= i < |s'.handlers[h].accepted|
      ensures AcceptedOk(s', h, i)
    {
      assert AcceptedOk(s, h, i);
      RequestStep(s, e, s.handlers[h].accepted[i]);
    }
    forall i | 0 <= i < |s'.handlers[h].rejected|
      ensures RejectedOk(s', h, i)
    {
      assert RejectedOk(s, h, i);
      RequestStep(s, e, s.handlers[h].rejected[i]);
    }
  }

  lemma ReceiveKeepsLists(s: State, h: Hid, r: Rid)
    requires Inv(s) && Handler?(s, h) && Request?(s, r) && s.requests[r].phase == Sending(h)
    requires s.handlers[h].phase.Running? || s.handlers[h].phase.Draining?
    ensures ListsOk(Next(s, Receive(h, r)), h)
  {
    var e, x, q := Receive(h, r), s.handlers[h], s.requests[r];
    var s' := Next(s, e);
    var y := s'.handlers[h];
    assert RequestOk(s, r);
    AskedStaysPut(s, e, h);
    forall i | 0 <= i < |y.accepted|
      ensures AcceptedOk(s', h, i)
    {
      if i < |x.accepted| {
        assert AcceptedOk(s, h, i);
        RequestStep(s, e, x.accepted[i]);
      }
    }
    forall i | 0 <= i < |y.rejected|
      ensures RejectedOk(s', h, i)
    {
      if i < |x.rejected| {
        assert RejectedOk(s, h, i);
        RequestStep(s, e, x.rejected[i]);
        if !Conflict(x.merged, q.asked) {
          MergeCovers(x.merged, q.asked, s.requests[x.rejected[i]].asked);
        }
      }
    }
    if !Conflict(x.merged, q.asked) {
      MergeJoins(x.merged, Asked(s, x.accepted), q.asked);
      assert Asked(s', y.accepted) == Asked(s, x.accepted) + [q.asked];
    }
  }

  lemma NewHandlerIsOk(s: State, volume: string, asked: Fields)
    requires volume !in s.registered
    ensures var s' := Next(s, Submit(volume, asked)); ListsOk(s', |s.handlers|) && PhaseOk(s', |s.handlers|)
  {
    var s' := Next(s, Submit(volume, asked));
    var h := |s.handlers|;
    assert AcceptedOk(s', h, 0);
    assert Asked(s', s'.handlers[h].accepted) == [asked];
  }

  // Only Submit and Timeout touch the map, and Timeout only the handler's own entry.
  lemma MapStep(s: State, e: Event)
    ensures Next(s, e).registered == s.registered ||
            (e.Submit? && e.volume !in s.registered && |Next(s, e).handlers| == |s.handlers| + 1 &&
             Next(s, e).registered == s.registered[e.volume := |s.handlers|]) ||
            (e.Timeout? && Handler?(s, e.h) && s.handlers[e.h].phase.Running? &&
             Next(s, e).registered == s.registered - {s.handlers[e.h].volume})
  {
  }

  lemma TimeoutKeepsPhases(s: State, h: Hid, k: Hid)
    requires Handler?(s, h) && PhaseOk(s, h) && Handler?(s, k) && PhaseOk(s, k)
    ensures Handler?(Next(s, Timeout(k)), h) && PhaseOk(Next(s, Timeout(k)), h)
  {
  }

  // A handler that a step moves, other than by its timeout, keeps its place in the map.
  lemma MovedPhaseKept(s: State, e: Event, h: Hid)
    requires Handler?(s, h) && PhaseOk(s, h) && Handler?(Next(s, e), h)
    requires e.Receive? || e.Refuse? || e.Execute? || e.Respond?
    ensures Next(s, e).registered == s.registered && PhaseOk(Next(s, e), h)
  {
  }

  lemma PhaseKept(s: State, e: Event, h: Hid)
    requires Handler?(s, h) && PhaseOk(s, h)
    requires e.Timeout? && Handler?(s, e.h) ==> PhaseOk(s, e.h)
    ensures Handler?(Next(s, e), h) && PhaseOk(Next(s, e), h)
  {
    HandlerStep(s, e, h);
    MapStep(s, e);
    match e
    case Timeout(k) =>
      if Handler?(s, k) {
        TimeoutKeepsPhases(s, h, k);
      }
    case Submit(_, _) =>
    case StartSend(_) =>
    case Cancel(_) =>
    case _ => MovedPhaseKept(s, e, h);
  }

  lemma ListsKept(s: State, e: Event, h: Hid)
    requires Inv(s) && Handler?(s, h)
    ensures Handler?(Next(s, e), h) && ListsOk(Next(s, e), h)
  {
    if e.Receive? && e.h == h && Request?(s, e.r) && s.requests[e.r].phase == Sending(h) &&
       (s.handlers[h].phase.Running? || s.handlers[h].phase.Draining?) {
      ReceiveKeepsLists(s, h, e.r);
    } else {
      ListsStayPut(s, e, h);
    }
  }

  // A request this step does not touch stays right: its handler only moves on.
  lemma UntouchedRequestKept(s: State, e: Event, r: Rid)
    requires Request?(s, r) && RequestOk(s, r)
    requires Request?(Next(s, e), r) && Next(s, e).requests[r] == s.requests[r]
    ensures RequestOk(Next(s, e), r)
  {
    var q := s.requests[r];
    if q.phase.Found? || q.phase.Sending? {
      HandlerStep(s, e, q.phase.h);
    } else {
      HandlerStep(s, e, q.place.h);
    }
  }

  lemma ReceivedRequestIsOk(s: State, h: Hid, r: Rid)
    requires Request?(s, r) && RequestOk(s, r) && Handler?(s, h) && s.requests[r].phase == Sending(h)
    requires s.handlers[h].phase.Running? || s.handlers[h].phase.Draining?
    ensures RequestOk(Next(s, Receive(h, r)), r)
  {
  }

  lemma RefusedRequestIsOk(s: State, h: Hid)
    requires Handler?(s, h) && s.handlers[h].phase.Refusing?
    requires Request?(s, s.handlers[h].phase.r) && s.requests[s.handlers[h].phase.r].phase == Listening
    requires ListsOk(s, h) && PhaseOk(s, h)
    ensures RequestOk(Next(s, Refuse(h)), s.handlers[h].phase.r)
  {
    assert RejectedOk(s, h, |s.handlers[h].rejected| - 1);
  }

  lemma AnsweredRequestIsOk(s: State, h: Hid)
    requires Handler?(s, h) && s.handlers[h].phase.Answering? && s.handlers[h].phase.i < |s.handlers[h].accepted|
    requires ListsOk(s, h)
    requires Request?(s, s.handlers[h].accepted[s.handlers[h].phase.i])
    requires s.requests[s.handlers[h].accepted[s.handlers[h].phase.i]].phase == Listening
    ensures RequestOk(Next(s, Respond(h, true)), s.handlers[h].accepted[s.handlers[h].phase.i])
  {
    assert AcceptedOk(s, h, s.handlers[h].phase.i);
  }

  lemma RequestKept(s: State, e: Event, r: Rid)
    requires Inv(s) && Request?(s, r)
    ensures Request?(Next(s, e), r) && RequestOk(Next(s, e), r)
  {
    assert RequestOk(s, r);
    RequestStep(s, e, r);
    if Next(s, e).requests[r] == s.requests[r] {
      UntouchedRequestKept(s, e, r);
    } else {
      match e
      case Receive(h, _) => ReceivedRequestIsOk(s, h, r);
      case Refuse(h) => RefusedRequestIsOk(s, h);
      case Respond(h, _) => AnsweredRequestIsOk(s, h);
      case _ =>
    }
  }

  lemma MapKept(s: State, e: Event)
    requires MapOk(s)
    ensures MapOk(Next(s, e))
  {
    var s' := Next(s, e);
    MapStep(s, e);
    forall v | v in s'.registered
      ensures Handler?(s', s'.registered[v]) && s'.handlers[s'.registered[v]].volume == v
    {
      if v in s.registered && s'.registered[v] == s.registered[v] {
        HandlerStep(s, e, s.registered[v]);
      }
    }
  }

  lemma HandlersKept(s: State, e: Event, h: Hid)
    requires Inv(s) && Handler?(Next(s, e), h)
    ensures ListsOk(Next(s, e), h) && PhaseOk(Next(s, e), h)
  {
    if Handler?(s, h) {
      ListsKept(s, e, h);
      PhaseKept(s, e, h);
    } else {
      NewHandlerIsOk(s, e.volume, e.asked);
    }
  }

  lemma RequestsKept(s: State, e: Event, r: Rid)
    requires Inv(s) && Request?(Next(s, e), r)
    ensures RequestOk(Next(s, e), r)
  {
    if Request?(s, r) {
      RequestKept(s, e, r);
    }
  }

  lemma NextKeepsInv(s: State, e: Event)
    requires Inv(s)
    ensures Inv(Next(s, e))
  {
    MapKept(s, e);
    forall h | Handler?(Next(s, e), h)
      ensures ListsOk(Next(s, e), h) && PhaseOk(Next(s, e), h)
    {
      HandlersKept(s, e, h);
    }
    forall r | Request?(Next(s, e), r)
      ensures RequestOk(Next(s, e), r)
    {
      RequestsKept(s, e, r);
    }
  }

  lemma {:induction false} RunKeepsInv(events: seq<Event>)
    ensures Inv(Run(events))
  {
    if events != [] {
      RunKeepsInv(events[..|events| - 1]);
      NextKeepsInv(Run(events[..|events| - 1]), events[|events| - 1]);
    }
  }

  // ----- What every run guarantees -----

  // At most one registered handler per volume; a timeout removes the handler's own entry and
  // no other; a handler that is not registered never becomes so again.
  lemma OneHandlerPerVolume(events: seq<Event>, h: Hid, k: Hid)
    requires Handler?(Run(events), h) && Handler?(Run(events), k)
    requires Active(Run(events).handlers[h])
    ensures var s := Run(events);
            && (Active(s.handlers[k]) && s.handlers[k].volume == s.handlers[h].volume ==> k == h)
            && s.handlers[h].volume in s.registered && s.registered[s.handlers[h].volume] == h
    ensures var s, s' := Run(events), Next(Run(events), Timeout(h));
            s.handlers[h].phase.Running? ==>
              s'.registered.Keys == s.registered.Keys - {s.handlers[h].volume} &&
              forall v :: v in s'.registered ==> s'.registered[v] == s.registered[v] != h
  {
    RunKeepsInv(events);
    var s := Run(events);
    assert PhaseOk(s, h) && PhaseOk(s, k);
  }

  // Entry i of a handler's accepted or rejected requests.
  predicate TakenAs(s: State, h: Hid, accepted: bool, i: nat, r: Rid) {
    Handler?(s, h) && Listed(if accepted then s.handlers[h].accepted else s.handlers[h].rejected, i, r)
  }

  // A request is in one list of one handler of its volume, once.
  lemma TakenOnce(events: seq<Event>, r: Rid, h: Hid, x: bool, i: nat, k: Hid, y: bool, j: nat)
    requires TakenAs(Run(events), h, x, i, r)
    ensures var s := Run(events); Request?(s, r) && s.requests[r].volume == s.handlers[h].volume
    ensures TakenAs(Run(events), k, y, j, r) ==> h == k && x == y && i == j
  {
    RunKeepsInv(events);
    TakenPlace(Run(events), r, h, x, i);
    if TakenAs(Run(events), k, y, j, r) {
      TakenPlace(Run(events), r, k, y, j);
    }
  }

  lemma TakenPlace(s: State, r: Rid, h: Hid, accepted: bool, i: nat)
    requires Inv(s) && TakenAs(s, h, accepted, i, r)
    ensures Request?(s, r) && s.requests[r].volume == s.handlers[h].volume
    ensures s.requests[r].place == if accepted then AcceptedBy(h, i) else RejectedBy(h, i)
  {
    assert ListsOk(s, h);
    if accepted {
      assert AcceptedOk(s, h, i);
    } else {
      assert RejectedOk(s, h, i);
    }
  }

  // A response comes from the handler that took the request: the outcome of its execution if
  // it accepted it, a refusal if it did not. It is the last thing that happens to a request.
  lemma ResponseComesFromTheTaker(events: seq<Event>, r: Rid, e: Event)
    requires Request?(Run(events), r) && Run(events).requests[r].phase.Answered?
    ensures Request?(Next(Run(events), e), r) && Next(Run(events), e).requests[r] == Run(events).requests[r]
    ensures var s := Run(events);
            match s.requests[r].phase.r
            case Executed(h) => Handler?(s, h) && r in s.handlers[h].accepted && |s.handlers[h].executed| == 1
            case Refused(h) =>
              Handler?(s, h) && r in s.handlers[h].rejected && Conflict(s.handlers[h].merged, s.requests[r].asked)
  {
    RunKeepsInv(events);
    var s := Run(events);
    assert RequestOk(s, r);
    RequestStep(s, e, r);
    var h := s.requests[r].place.h;
    assert PhaseOk(s, h) && ListsOk(s, h);
    if s.requests[r].place.RejectedBy? {
      assert RejectedOk(s, h, s.requests[r].place.i);
    }
  }

  // A handler executes only when its time is up, and then not before it has taken everybody who is
  // blocked on its channel.
  lemma DrainsBeforeExecuting(s: State, e: Event, h: Hid)
    requires Handler?(s, h) && Handler?(Next(s, e), h)
    requires Next(s, e).handlers[h].executed != s.handlers[h].executed
    ensures e == Execute(h) && s.handlers[h].phase == Draining
    ensures forall r :: 0 <= r < |s.requests| ==> s.requests[r].phase != Sending(h)
  {
  }

  // A handler executes at most once; when it does it has left the map, and what it executes is
  // the join of exactly what its accepted requests ask for, in conflict with every request it
  // rejected. From then on nothing it stands for changes.
  lemma ExecutesOnceForItsOwn(events: seq<Event>, h: Hid, e: Event)
    requires Handler?(Run(events), h) && Run(events).handlers[h].executed != []
    ensures var s := Run(events); var x := s.handlers[h];
            && |x.executed| == 1 && !Active(x)
            && (x.volume in s.registered ==> s.registered[x.volume] != h)
            && IsJoin(x.executed[0], Asked(s, x.accepted))
            && (forall i :: 0 <= i < |x.rejected| ==>
                  Request?(s, x.rejected[i]) && Conflict(x.executed[0], s.requests[x.rejected[i]].asked))
    ensures var x := Run(events).handlers[h];
            && Handler?(Next(Run(events), e), h)
            && var y := Next(Run(events), e).handlers[h];
               y.executed == x.executed && y.accepted == x.accepted && y.rejected == x.rejected
  {
    RunKeepsInv(events);
    var s := Run(events);
    assert ListsOk(s, h) && PhaseOk(s, h);
    HandlerStep(s, e, h);
    forall i | 0 <= i < |s.handlers[h].rejected|
      ensures Request?(s, s.handlers[h].rejected[i])
      ensures Conflict(s.handlers[h].executed[0], s.requests[s.handlers[h].rejected[i]].asked)
    {
      assert RejectedOk(s, h, i);
    }
  }

  lemma RunOne(events: seq<Event>, e: Event)
    ensures Run(events + [e]) == Next(Run(events), e)
  {
    assert (events + [e])[..|events|] == events;
  }
}
