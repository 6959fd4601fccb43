/**
 Room broadcasts across replicas. A replica delivers an event to its own clients and publishes it;
 Redis hands every accepted publication to every replica once, in order per publisher; a replica
 skips the ones that carry its own process id. The API publishes with no process id.
 */
module Fanout {
  import opened Json
  import opened RoomEvents
  import opened Wrappers
  import opened Rooms
  import opened RoomSafety
  import opened RoomEffects
  import opened Audiences

  /** What a subscriber receives; the message has been through JSON. */
  datatype Envelope = Envelope(id: MsgId, model: Model, message: Value)

  datatype Publication = Publication(model: Model, message: Value)

  /** `published` is history: what Redis has accepted. */
  datatype System = System(
    replicas: map<Pid, Server>, inbox: map<Pid, seq<Envelope>>, api: nat, published: map<MsgId, Publication>)

  datatype SystemStep =
    | Local(p: Pid, e: Step, lost: set<MsgId>)  // a handler runs; publications in `lost` fail
    | Deliver(p: Pid, i: nat)                   // replica p handles the i-th waiting publication
    | ApiPublish(model: Model, message: Value)

  function Envelopes(log: seq<Record>, lost: set<MsgId>): seq<Envelope> {
    if log == [] then []
    else
      var r := log[|log| - 1];
      Envelopes(log[..|log| - 1], lost) + if r.id in lost then [] else [Envelope(r.id, r.model, r.message.OnWire())]
  }

  function Accepted(log: seq<Record>, lost: set<MsgId>): map<MsgId, Publication> {
    if log == [] then map[]
    else
      var r := log[|log| - 1];
      Accepted(log[..|log| - 1], lost) + if r.id in lost then map[] else map[r.id := Publication(r.model, r.message)]
  }

  function Append(inbox: map<Pid, seq<Envelope>>, es: seq<Envelope>): map<Pid, seq<Envelope>> {
    map p | p in inbox :: inbox[p] + es
  }

  function Added(s: Server, r: Server): seq<Record> {
    if |s.log| <= |r.log| then r.log[|s.log|..] else []
  }

  predicate SysEnabled(y: System, e: SystemStep) {
    match e
    case Local(p, e, _) => p in y.replicas && !e.Remote? && Enabled(y.replicas[p], e)
    case Deliver(p, i) =>
      && p in y.replicas && p in y.inbox && i < |y.inbox[p]|
      && forall j | 0 <= j < i :: y.inbox[p][j].id.origin != y.inbox[p][i].id.origin
    case ApiPublish(_, _) => true
  }

  function SysNext(y: System, e: SystemStep): System
    requires SysEnabled(y, e)
  {
    match e
    case Local(p, e, lost) =>
      var s, r := y.replicas[p], Next(y.replicas[p], e);
      var added := Added(s, r);
      System(y.replicas[p := r], Append(y.inbox, Envelopes(added, lost)), y.api, y.published + Accepted(added, lost))
    case Deliver(p, i) =>
      var env := y.inbox[p][i];
      y.(replicas := y.replicas[p := Next(y.replicas[p], Remote(env.id, env.model, env.message))],
         inbox := y.inbox[p := y.inbox[p][..i] + y.inbox[p][i + 1..]])
    case ApiPublish(m, message) =>
      var id := MsgId(None, y.api);
      y.(inbox := Append(y.inbox, [Envelope(id, m, message.OnWire())]), api := y.api + 1,
         published := y.published[id := Publication(m, message)])
  }

  ghost predicate SysInitial(y: System) {
    && y.inbox.Keys == y.replicas.Keys
    && (forall p | p in y.replicas :: y.replicas[p].pid == p && Initial(y.replicas[p]) && y.inbox[p] == [])
    && y.api == 0 && y.published == map[]
  }

  // ---- invariant ----

  /** An id that its publisher has already used. */
  predicate Used(y: System, id: MsgId) {
    if id.origin.None? then id.k < y.api
    else id.origin.value in y.replicas && id.k < y.replicas[id.origin.value].own
  }

  predicate InLog(log: seq<Record>, id: MsgId) {
    exists i | 0 <= i < |log| :: log[i].id == id
  }

  predicate InBox(box: seq<Envelope>, id: MsgId) {
    exists i | 0 <= i < |box| :: box[i].id == id
  }

  /** Broadcasts of one publisher are handled, and wait, in the order in which it made them. */
  ghost predicate Ordered(log: seq<Record>, box: seq<Envelope>, p: Pid) {
    && (forall i, j | 0 <= i < j < |log| && log[i].id.origin == log[j].id.origin :: log[i].id.k < log[j].id.k)
    && (forall i, j | 0 <= i < j < |box| && box[i].id.origin == box[j].id.origin :: box[i].id.k < box[j].id.k)
    && (forall i, j | 0 <= i < |log| && 0 <= j < |box| && log[i].id.origin == box[j].id.origin != Some(p) ::
         log[i].id.k < box[j].id.k)
  }

  ghost predicate AllUsed(y: System, log: seq<Record>, box: seq<Envelope>) {
    && (forall i | 0 <= i < |log| :: Used(y, log[i].id))
    && (forall i | 0 <= i < |box| :: Used(y, box[i].id))
  }

  /** What a record or an envelope says about a publication is what was published. */
  ghost predicate Faithful(published: map<MsgId, Publication>, log: seq<Record>, box: seq<Envelope>, p: Pid) {
    && (forall i | 0 <= i < |log| && log[i].id in published ::
         && log[i].model == published[log[i].id].model
         && log[i].message == if log[i].id.origin == Some(p) then published[log[i].id].message
                              else published[log[i].id].message.OnWire())
    && (forall i | 0 <= i < |log| && log[i].id.origin != Some(p) :: log[i].id in published)
    && (forall i | 0 <= i < |box| ::
         && box[i].id in published
         && box[i].model == published[box[i].id].model && box[i].message == published[box[i].id].message.OnWire())
  }

  /** Nothing that was published is lost on the way to a replica. */
  ghost predicate Accounted(published: map<MsgId, Publication>, log: seq<Record>, box: seq<Envelope>, p: Pid) {
    forall id | id in published ::
      InLog(log, id) || (id.origin != Some(p) && InBox(box, id))
  }

  /** What a replica broadcast itself is an event of its own making. */
  ghost predicate OwnEvents(log: seq<Record>, p: Pid) {
    forall i | 0 <= i < |log| && log[i].id.origin == Some(p) :: IsEvent(log[i].message)
  }

  ghost predicate ReplicaOk(y: System, p: Pid)
    requires p in y.replicas && p in y.inbox
  {
    var s, box := y.replicas[p], y.inbox[p];
    && s.pid == p && Inv(s) && OutboxOk(s)
    && OwnEvents(s.log, p)
    && Ordered(s.log, box, p)
    && AllUsed(y, s.log, box)
    && Faithful(y.published, s.log, box, p)
    && Accounted(y.published, s.log, box, p)
  }

  ghost predicate SysInv(y: System) {
    && y.inbox.Keys == y.replicas.Keys
    && (forall p | p in y.replicas :: ReplicaOk(y, p))
    && (forall id | id in y.published :: Used(y, id))
  }

  lemma InitialOk(y: System)
    requires SysInitial(y)
    ensures SysInv(y)
  {
    forall p | p in y.replicas ensures ReplicaOk(y, p) {
      RoomSafety.InitialOk(y.replicas[p]);
    }
  }

  // ---- a handler of one replica ----

  ghost predicate Consecutive(added: seq<Record>, p: Pid, own: nat) {
    forall i | 0 <= i < |added| :: added[i].id == MsgId(Some(p), own + i)
  }

  ghost predicate EnvelopesMatch(es: seq<Envelope>, accepted: map<MsgId, Publication>, p: Pid, lo: nat, hi: nat) {
    && (forall j | 0 <= j < |es| ::
         && es[j].id.origin == Some(p) && lo <= es[j].id.k < hi
         && es[j].id in accepted
         && es[j].model == accepted[es[j].id].model && es[j].message == accepted[es[j].id].message.OnWire())
    && (forall i, j | 0 <= i < j < |es| :: es[i].id.k < es[j].id.k)
    && (forall id | id in accepted :: InBox(es, id))
  }

  /** What is accepted is what the records say; the k-th own record has index k - own. */
  ghost predicate AcceptedMatch(accepted: map<MsgId, Publication>, added: seq<Record>, p: Pid, own: nat) {
    forall id | id in accepted ::
      && id.origin == Some(p) && own <= id.k < own + |added|
      && accepted[id] == Publication(added[id.k - own].model, added[id.k - own].message)
  }

  lemma OneMoreEnvelope(es: seq<Envelope>, accepted: map<MsgId, Publication>, p: Pid, lo: nat, hi: nat, r: Record)
    requires EnvelopesMatch(es, accepted, p, lo, hi) && r.id == MsgId(Some(p), hi) && lo <= hi
    requires r.id !in accepted
    ensures EnvelopesMatch(es + [Envelope(r.id, r.model, r.message.OnWire())],
                           accepted + map[r.id := Publication(r.model, r.message)], p, lo, hi + 1)
  {
    hide Value.OnWire;
    BoxGrows(es, [Envelope(r.id, r.model, r.message.OnWire())]);
    assert [Envelope(r.id, r.model, r.message.OnWire())][0].id == r.id;
  }

  lemma OneMoreAccepted(accepted: map<MsgId, Publication>, added: seq<Record>, p: Pid, own: nat)
    requires added != [] && Consecutive(added, p, own)
    requires AcceptedMatch(accepted, added[..|added| - 1], p, own)
    ensures AcceptedMatch(accepted, added, p, own)
    ensures var r := added[|added| - 1];
            r.id !in accepted && AcceptedMatch(accepted + map[r.id := Publication(r.model, r.message)], added, p, own)
  {
  }

  lemma EnvelopesUnfold(added: seq<Record>, lost: set<MsgId>)
    requires added != []
    ensures var n, r := |added| - 1, added[|added| - 1];
            if r.id in lost then
              && Envelopes(added, lost) == Envelopes(added[..n], lost)
              && Accepted(added, lost) == Accepted(added[..n], lost)
            else
              && Envelopes(added, lost) == Envelopes(added[..n], lost) + [Envelope(r.id, r.model, r.message.OnWire())]
              && Accepted(added, lost) == Accepted(added[..n], lost) + map[r.id := Publication(r.model, r.message)]
  {
    hide Value.OnWire;
    if added[|added| - 1].id in lost {
      assert Envelopes(added[..|added| - 1], lost) + [] == Envelopes(added[..|added| - 1], lost);
      assert Accepted(added[..|added| - 1], lost) + map[] == Accepted(added[..|added| - 1], lost);
    }
  }

  lemma {:induction false} EnvelopesSpec(added: seq<Record>, lost: set<MsgId>, p: Pid, own: nat)
    requires Consecutive(added, p, own)
    ensures EnvelopesMatch(Envelopes(added, lost), Accepted(added, lost), p, own, own + |added|)
    ensures AcceptedMatch(Accepted(added, lost), added, p, own)
  {
    hide EnvelopesMatch, AcceptedMatch, Value.OnWire, Envelopes, Accepted;
    if added == [] {
      NoEnvelopes(p, own, lost);
    } else {
      var n := |added| - 1;
      EnvelopesUnfold(added, lost);
      EnvelopesSpec(added[..n], lost, p, own);
      OneMoreAccepted(Accepted(added[..n], lost), added, p, own);
      if added[n].id in lost {
        StillMatch(Envelopes(added[..n], lost), Accepted(added[..n], lost), p, own, own + n);
      } else {
        OneMoreEnvelope(Envelopes(added[..n], lost), Accepted(added[..n], lost), p, own, own + n, added[n]);
      }
    }
  }

  lemma NoEnvelopes(p: Pid, own: nat, lost: set<MsgId>)
    ensures EnvelopesMatch(Envelopes([], lost), Accepted([], lost), p, own, own)
    ensures AcceptedMatch(Accepted([], lost), [], p, own)
  {
  }

  lemma StillMatch(es: seq<Envelope>, accepted: map<MsgId, Publication>, p: Pid, lo: nat, hi: nat)
    requires EnvelopesMatch(es, accepted, p, lo, hi)
    ensures EnvelopesMatch(es, accepted, p, lo, hi + 1)
  {
  }

  lemma AddedConsecutive(s: Server, r: Server)
    requires Emits(s, r)
    ensures Consecutive(Added(s, r), s.pid, s.own) && r.own == s.own + |Added(s, r)| && r.log == s.log + Added(s, r)
    ensures OwnEvents(s.log, s.pid) ==> OwnEvents(r.log, s.pid)
  {
    hide IsEvent;
    var added := Added(s, r);
    forall i | 0 <= i < |added| ensures added[i].id == MsgId(Some(s.pid), s.own + i) {
      assert added[i] == r.log[|s.log| + i];
    }
  }

  /** The publishing replica: new records at the end of its log, echoes of them in its box. */
  lemma PublisherOk(log: seq<Record>, box: seq<Envelope>, added: seq<Record>, es: seq<Envelope>,
                    accepted: map<MsgId, Publication>, p: Pid, own: nat)
    requires Ordered(log, box, p) && Consecutive(added, p, own)
    requires EnvelopesMatch(es, accepted, p, own, own + |added|)
    requires forall i | 0 <= i < |log| && log[i].id.origin == Some(p) :: log[i].id.k < own
    requires forall i | 0 <= i < |box| && box[i].id.origin == Some(p) :: box[i].id.k < own
    ensures Ordered(log + added, box + es, p)
  {
  }

  lemma OthersOk(log: seq<Record>, box: seq<Envelope>, es: seq<Envelope>,
                 accepted: map<MsgId, Publication>, p: Pid, q: Pid, own: nat, hi: nat)
    requires Ordered(log, box, q) && q != p
    requires EnvelopesMatch(es, accepted, p, own, hi)
    requires forall i | 0 <= i < |log| && log[i].id.origin == Some(p) :: log[i].id.k < own
    requires forall i | 0 <= i < |box| && box[i].id.origin == Some(p) :: box[i].id.k < own
    ensures Ordered(log, box + es, q)
  {
  }

  lemma BoxGrows(box: seq<Envelope>, es: seq<Envelope>)
    ensures forall id :: InBox(box + es, id) <==> InBox(box, id) || InBox(es, id)
  {
    forall id ensures InBox(box + es, id) <==> InBox(box, id) || InBox(es, id) {
      if InBox(box, id) {
        var i :| 0 <= i < |box| && box[i].id == id;
        assert (box + es)[i].id == id;
      }
      if InBox(es, id) {
        var i :| 0 <= i < |es| && es[i].id == id;
        assert (box + es)[|box| + i].id == id;
      }
    }
  }

  lemma LogGrows(log: seq<Record>, added: seq<Record>)
    ensures forall id :: InLog(log + added, id) <==> InLog(log, id) || InLog(added, id)
  {
    forall id ensures InLog(log + added, id) <==> InLog(log, id) || InLog(added, id) {
      if InLog(log, id) {
        var i :| 0 <= i < |log| && log[i].id == id;
        assert (log + added)[i].id == id;
      }
      if InLog(added, id) {
        var i :| 0 <= i < |added| && added[i].id == id;
        assert (log + added)[|log| + i].id == id;
      }
    }
  }

  /** New publications do not change what an old record says. */
  lemma FaithfulGrows(published: map<MsgId, Publication>, accepted: map<MsgId, Publication>,
                      log: seq<Record>, box: seq<Envelope>, es: seq<Envelope>, p: Pid, q: Pid, own: nat, hi: nat)
    requires Faithful(published, log, box, q)
    requires EnvelopesMatch(es, accepted, p, own, hi)
    requires forall id | id in accepted :: id !in published && id.origin == Some(p) && own <= id.k
    requires forall i | 0 <= i < |log| && log[i].id.origin == Some(p) :: log[i].id.k < own
    ensures Faithful(published + accepted, log, box + es, q)
  {
  }

  lemma OldAreOlder(y: System, q: Pid, p: Pid)
    requires SysInv(y) && q in y.replicas && p in y.replicas
    ensures var own := y.replicas[p].own;
            && (forall i | 0 <= i < |y.replicas[q].log| && y.replicas[q].log[i].id.origin == Some(p) ::
                 y.replicas[q].log[i].id.k < own)
            && (forall i | 0 <= i < |y.inbox[q]| && y.inbox[q][i].id.origin == Some(p) :: y.inbox[q][i].id.k < own)
            && (forall id | id in y.published && id.origin == Some(p) :: id.k < own)
  {
    hide Inv, OutboxOk, Ordered, Faithful, Accounted;
    assert ReplicaOk(y, q);
    forall i | 0 <= i < |y.replicas[q].log| && y.replicas[q].log[i].id.origin == Some(p)
      ensures y.replicas[q].log[i].id.k < y.replicas[p].own
    {
      assert Used(y, y.replicas[q].log[i].id);
    }
    forall i | 0 <= i < |y.inbox[q]| && y.inbox[q][i].id.origin == Some(p)
      ensures y.inbox[q][i].id.k < y.replicas[p].own
    {
      assert Used(y, y.inbox[q][i].id);
    }
  }

  lemma LocalPublisher(y: System, p: Pid, e: Step, lost: set<MsgId>)
    requires SysInv(y) && SysEnabled(y, Local(p, e, lost))
    ensures ReplicaOk(SysNext(y, Local(p, e, lost)), p)
  {
    hide OwnEvents, Next, Inv, OutboxOk, Value.OnWire, Ordered, Faithful, Accounted, AllUsed, EnvelopesMatch,
      AcceptedMatch, Consecutive, Enabled;
    var s, r := y.replicas[p], Next(y.replicas[p], e);
    assert ReplicaOk(y, p);
    LocalReplica(s, e);
    var added := Added(s, r);
    var es, accepted := Envelopes(added, lost), Accepted(added, lost);
    EnvelopesSpec(added, lost, p, s.own);
    OldAreOlder(y, p, p);
    PublisherOk(s.log, y.inbox[p], added, es, accepted, p, s.own);
    var z := SysNext(y, Local(p, e, lost));
    LocalUsed(y, p, e, lost, p);
    LocalFaithful(y.published, accepted, s.log, y.inbox[p], added, es, p, s.own);
    LocalAccounted(y.published, accepted, s.log, y.inbox[p], added, es, p, s.own);
  }

  lemma LocalReplica(s: Server, e: Step)
    requires Inv(s) && OutboxOk(s) && Enabled(s, e) && !e.Remote?
    ensures var r := Next(s, e);
            && Inv(r) && OutboxOk(r) && r.pid == s.pid && s.own <= r.own
            && Consecutive(Added(s, r), s.pid, s.own) && r.own == s.own + |Added(s, r)| && r.log == s.log + Added(s, r)
            && (OwnEvents(s.log, s.pid) ==> OwnEvents(r.log, s.pid))
  {
    NextKeeps(s, e);
    if e.Pass? {
      assert Added(s, Next(s, e)) == [];
    } else {
      hide Next, Enabled, Inv;
      NextEffect(s, e);
      AddedConsecutive(s, Next(s, e));
    }
  }

  lemma LocalFaithful(published: map<MsgId, Publication>, accepted: map<MsgId, Publication>,
                      log: seq<Record>, box: seq<Envelope>, added: seq<Record>, es: seq<Envelope>, p: Pid, own: nat)
    requires Faithful(published, log, box, p)
    requires EnvelopesMatch(es, accepted, p, own, own + |added|) && AcceptedMatch(accepted, added, p, own)
    requires Consecutive(added, p, own)
    requires forall id | id in published && id.origin == Some(p) :: id.k < own
    requires forall i | 0 <= i < |log| && log[i].id.origin == Some(p) :: log[i].id.k < own
    ensures Faithful(published + accepted, log + added, box + es, p)
  {
    hide Value.OnWire;
    FaithfulGrows(published, accepted, log, box, es, p, p, own, own + |added|);
    var all := log + added;
    forall i | |log| <= i < |all| && all[i].id in published + accepted
      ensures all[i].model == (published + accepted)[all[i].id].model && all[i].message == (published + accepted)[all[i].id].message
    {
      assert all[i] == added[i - |log|];
    }
  }

  lemma LocalAccounted(published: map<MsgId, Publication>, accepted: map<MsgId, Publication>,
                       log: seq<Record>, box: seq<Envelope>, added: seq<Record>, es: seq<Envelope>, p: Pid, own: nat)
    requires Accounted(published, log, box, p)
    requires AcceptedMatch(accepted, added, p, own) && Consecutive(added, p, own)
    ensures Accounted(published + accepted, log + added, box + es, p)
  {
    LogGrows(log, added);
    BoxGrows(box, es);
    forall id | id in accepted ensures InLog(added, id) {
      assert added[id.k - own].id == id;
    }
  }

  lemma EnvelopesUsed(z: System, es: seq<Envelope>, accepted: map<MsgId, Publication>, p: Pid, lo: nat, hi: nat)
    requires EnvelopesMatch(es, accepted, p, lo, hi) && p in z.replicas && hi <= z.replicas[p].own
    ensures forall i | 0 <= i < |es| :: Used(z, es[i].id)
  {
  }

  lemma RecordsUsed(z: System, added: seq<Record>, p: Pid, own: nat)
    requires Consecutive(added, p, own) && p in z.replicas && own + |added| <= z.replicas[p].own
    ensures forall i | 0 <= i < |added| :: Used(z, added[i].id)
  {
  }

  lemma LocalIds(y: System, p: Pid, e: Step, lost: set<MsgId>)
    requires SysInv(y) && SysEnabled(y, Local(p, e, lost))
    ensures var s, r, z := y.replicas[p], Next(y.replicas[p], e), SysNext(y, Local(p, e, lost));
            var added := Added(s, r);
            && r.log == s.log + added
            && (forall i | 0 <= i < |added| :: Used(z, added[i].id))
            && (forall i | 0 <= i < |Envelopes(added, lost)| :: Used(z, Envelopes(added, lost)[i].id))
            && (forall id | Used(y, id) :: Used(z, id))
  {
    hide OwnEvents, Next, Inv, OutboxOk, Value.OnWire, Ordered, Faithful, Accounted, AcceptedMatch, Enabled, Used;
    hide EnvelopesMatch, Consecutive, Envelopes, Accepted, AllUsed;
    assert ReplicaOk(y, p);
    var s, r := y.replicas[p], Next(y.replicas[p], e);
    LocalReplica(s, e);
    var added := Added(s, r);
    EnvelopesSpec(added, lost, p, s.own);
    var z := SysNext(y, Local(p, e, lost));
    SameUsed(y, z);
    EnvelopesUsed(z, Envelopes(added, lost), Accepted(added, lost), p, s.own, r.own);
    RecordsUsed(z, added, p, s.own);
  }

  lemma LocalUsed(y: System, p: Pid, e: Step, lost: set<MsgId>, q: Pid)
    requires SysInv(y) && SysEnabled(y, Local(p, e, lost)) && q in y.replicas
    ensures var z := SysNext(y, Local(p, e, lost));
            AllUsed(z, z.replicas[q].log, z.inbox[q])
  {
    hide OwnEvents, Next, Inv, OutboxOk, Value.OnWire, Ordered, Faithful, Accounted, Enabled, Used, Envelopes, Accepted, Added;
    assert ReplicaOk(y, q);
    LocalIds(y, p, e, lost);
    var z, log, box := SysNext(y, Local(p, e, lost)), y.replicas[q].log, y.inbox[q];
    var added := Added(y.replicas[p], Next(y.replicas[p], e));
    var es := Envelopes(added, lost);
    assert AllUsed(z, log, box);
    hide AllUsed, ReplicaOk;
    MoreUsed(z, log, [], box, es);
    MoreUsed(z, log, added, box, es);
    assert log + [] == log;
  }

  lemma MoreUsed(z: System, log: seq<Record>, added: seq<Record>, box: seq<Envelope>, es: seq<Envelope>)
    requires AllUsed(z, log, box)
    requires forall i | 0 <= i < |added| :: Used(z, added[i].id)
    requires forall i | 0 <= i < |es| :: Used(z, es[i].id)
    ensures AllUsed(z, log + added, box + es)
  {
    hide Used;
  }

  lemma LocalOther(y: System, p: Pid, e: Step, lost: set<MsgId>, q: Pid)
    requires SysInv(y) && SysEnabled(y, Local(p, e, lost)) && q in y.replicas && q != p
    ensures ReplicaOk(SysNext(y, Local(p, e, lost)), q)
  {
    hide OwnEvents, Next, Inv, OutboxOk, Value.OnWire, Ordered, Faithful, Accounted, AllUsed, EnvelopesMatch, Enabled;
    assert ReplicaOk(y, p) && ReplicaOk(y, q);
    var s, r, t := y.replicas[p], Next(y.replicas[p], e), y.replicas[q];
    LocalReplica(s, e);
    var added := Added(s, r);
    var es, accepted := Envelopes(added, lost), Accepted(added, lost);
    EnvelopesSpec(added, lost, p, s.own);
    OldAreOlder(y, q, p);
    OthersOk(t.log, y.inbox[q], es, accepted, p, q, s.own, s.own + |added|);
    LocalUsed(y, p, e, lost, q);
    FaithfulGrows(y.published, accepted, t.log, y.inbox[q], es, p, q, s.own, s.own + |added|);
    OtherAccounted(y.published, accepted, t.log, y.inbox[q], es, p, q, s.own, s.own + |added|);
  }

  lemma OtherAccounted(published: map<MsgId, Publication>, accepted: map<MsgId, Publication>,
                       log: seq<Record>, box: seq<Envelope>, es: seq<Envelope>, p: Pid, q: Pid, own: nat, hi: nat)
    requires Accounted(published, log, box, q) && p != q
    requires EnvelopesMatch(es, accepted, p, own, hi)
    requires forall id | id in accepted :: id.origin == Some(p)
    ensures Accounted(published + accepted, log, box + es, q)
  {
    BoxGrows(box, es);
  }

  // ---- a replica handles a publication ----

  function Without(box: seq<Envelope>, i: nat): seq<Envelope>
    requires i < |box|
  {
    box[..i] + box[i + 1..]
  }

  lemma WithoutFacts(box: seq<Envelope>, i: nat)
    requires i < |box|
    ensures var rest := Without(box, i);
            && |rest| == |box| - 1
            && (forall j | 0 <= j < |rest| :: rest[j] == box[if j < i then j else j + 1])
            && (forall id | InBox(box, id) && id != box[i].id :: InBox(rest, id))
  {
    var rest := Without(box, i);
    forall id | InBox(box, id) && id != box[i].id ensures InBox(rest, id) {
      var j :| 0 <= j < |box| && box[j].id == id;
      assert rest[if j < i then j else j - 1].id == id;
    }
  }

  lemma DeliverOrdered(log: seq<Record>, box: seq<Envelope>, p: Pid, i: nat, r: Record)
    requires Ordered(log, box, p) && i < |box| && r.id == box[i].id
    requires forall j | 0 <= j < i :: box[j].id.origin != box[i].id.origin
    ensures box[i].id.origin == Some(p) ==> Ordered(log, Without(box, i), p)
    ensures box[i].id.origin != Some(p) ==> Ordered(log + [r], Without(box, i), p)
  {
    WithoutFacts(box, i);
  }

  lemma DeliverContents(published: map<MsgId, Publication>, log: seq<Record>, box: seq<Envelope>, p: Pid, i: nat, r: Record)
    requires Faithful(published, log, box, p) && Accounted(published, log, box, p)
    requires i < |box| && r.id == box[i].id && r.model == box[i].model && r.message == box[i].message
    ensures var rest := Without(box, i);
            if box[i].id.origin == Some(p) then Faithful(published, log, rest, p) && Accounted(published, log, rest, p)
            else Faithful(published, log + [r], rest, p) && Accounted(published, log + [r], rest, p)
  {
    hide Value.OnWire;
    WithoutFacts(box, i);
    LogGrows(log, [r]);
    assert [r][0].id == r.id;
  }

  function RemoteRecord(s: Server, env: Envelope): Record {
    Record(env.id, s.now, env.model, env.message, FromOutside, None, Members(s, env.model), Audience(s, env.model, None))
  }

  lemma DeliverReplica(s: Server, env: Envelope)
    requires Inv(s) && OutboxOk(s)
    ensures var r := Next(s, Remote(env.id, env.model, env.message));
            && Inv(r) && OutboxOk(r) && r.pid == s.pid && r.own == s.own
            && if env.id.origin == Some(s.pid) then r == s
               else r.log == s.log + [RemoteRecord(s, env)]
  {
    RemoteStepKeeps(s, env.id, env.model, env.message);
    hide Next, OutboxOk, Inv;
    RemoteEffect(s, env.id, env.model, env.message);
  }

  lemma SameUsed(y: System, z: System)
    requires y.api <= z.api && z.replicas.Keys == y.replicas.Keys
    requires forall p | p in y.replicas :: y.replicas[p].own <= z.replicas[p].own
    ensures forall id | Used(y, id) :: Used(z, id)
  {
  }

  lemma DeliverKeeps(y: System, p: Pid, i: nat)
    requires SysInv(y) && SysEnabled(y, Deliver(p, i))
    ensures SysInv(SysNext(y, Deliver(p, i)))
  {
    hide Next, ReplicaOk, Used;
    var z := SysNext(y, Deliver(p, i));
    DeliverSameUsed(y, p, i);
    forall q | q in z.replicas ensures ReplicaOk(z, q) {
      if q == p { DeliverSelf(y, p, i); } else { DeliverOther(y, p, i, q); }
    }
  }

  lemma DeliverSameUsed(y: System, p: Pid, i: nat)
    requires SysInv(y) && SysEnabled(y, Deliver(p, i))
    ensures forall id | Used(y, id) :: Used(SysNext(y, Deliver(p, i)), id)
  {
    hide OwnEvents, Next, Inv, OutboxOk, Ordered, Faithful, Accounted, Used, AllUsed;
    assert ReplicaOk(y, p);
    DeliverReplica(y.replicas[p], y.inbox[p][i]);
    SameUsed(y, SysNext(y, Deliver(p, i)));
  }

  lemma DeliverOther(y: System, p: Pid, i: nat, q: Pid)
    requires SysInv(y) && SysEnabled(y, Deliver(p, i)) && q in y.replicas && q != p
    ensures ReplicaOk(SysNext(y, Deliver(p, i)), q)
  {
    hide OwnEvents, Next, Inv, OutboxOk, Ordered, Faithful, Accounted, Used;
    assert ReplicaOk(y, q);
    DeliverSameUsed(y, p, i);
  }

  lemma DeliverSelf(y: System, p: Pid, i: nat)
    requires SysInv(y) && SysEnabled(y, Deliver(p, i))
    ensures ReplicaOk(SysNext(y, Deliver(p, i)), p)
  {
    hide OwnEvents, Next, Inv, OutboxOk, Ordered, Faithful, Accounted, Used;
    assert ReplicaOk(y, p);
    var s, box := y.replicas[p], y.inbox[p];
    DeliverReplica(s, box[i]);
    WithoutFacts(box, i);
    DeliverSameUsed(y, p, i);
    DeliverOrdered(s.log, box, p, i, RemoteRecord(s, box[i]));
    DeliverContents(y.published, s.log, box, p, i, RemoteRecord(s, box[i]));
    if box[i].id.origin != Some(p) { OthersEvent(s.log, RemoteRecord(s, box[i]), p); }
  }

  lemma OthersEvent(log: seq<Record>, r: Record, p: Pid)
    requires OwnEvents(log, p) && r.id.origin != Some(p)
    ensures OwnEvents(log + [r], p)
  {
    hide IsEvent;
  }

  // ---- the API publishes ----

  lemma ApiKeeps(y: System, m: Model, message: Value)
    requires SysInv(y)
    ensures SysInv(SysNext(y, ApiPublish(m, message)))
  {
    hide Inv, OutboxOk, Value.OnWire, Ordered, Faithful, Accounted;
    var z := SysNext(y, ApiPublish(m, message));
    SameUsed(y, z);
    forall q | q in z.replicas ensures ReplicaOk(z, q) {
      assert ReplicaOk(y, q);
      ApiReplica(y, m, message, q);
    }
  }

  lemma ApiBox(published: map<MsgId, Publication>, log: seq<Record>, box: seq<Envelope>, q: Pid, k: nat, m: Model, message: Value)
    requires Ordered(log, box, q) && Faithful(published, log, box, q) && Accounted(published, log, box, q)
    requires MsgId(None, k) !in published
    requires forall i | 0 <= i < |log| && log[i].id.origin.None? :: log[i].id.k < k
    requires forall i | 0 <= i < |box| && box[i].id.origin.None? :: box[i].id.k < k
    ensures var env := Envelope(MsgId(None, k), m, message.OnWire());
            var published1 := published[env.id := Publication(m, message)];
            && Ordered(log, box + [env], q)
            && Faithful(published1, log, box + [env], q)
            && Accounted(published1, log, box + [env], q)
  {
    hide Value.OnWire;
    var env := Envelope(MsgId(None, k), m, message.OnWire());
    BoxGrows(box, [env]);
    assert [env][0].id == env.id;
  }

  lemma ApiReplica(y: System, m: Model, message: Value, q: Pid)
    requires SysInv(y) && q in y.replicas && q in y.inbox
    ensures var env := Envelope(MsgId(None, y.api), m, message.OnWire());
            var log, box := y.replicas[q].log, y.inbox[q] + [env];
            var published := y.published[env.id := Publication(m, message)];
            Ordered(log, box, q) && Faithful(published, log, box, q) && Accounted(published, log, box, q)
  {
    hide Inv, OutboxOk, Value.OnWire, Ordered, Faithful, Accounted;
    assert ReplicaOk(y, q);
    var s, box := y.replicas[q], y.inbox[q];
    assert MsgId(None, y.api) !in y.published by { assert !Used(y, MsgId(None, y.api)); }
    forall i | 0 <= i < |s.log| && s.log[i].id.origin.None? ensures s.log[i].id.k < y.api {
      assert Used(y, s.log[i].id);
    }
    forall i | 0 <= i < |box| && box[i].id.origin.None? ensures box[i].id.k < y.api {
      assert Used(y, box[i].id);
    }
    ApiBox(y.published, s.log, box, q, y.api, m, message);
  }

  lemma LocalKeeps(y: System, p: Pid, e: Step, lost: set<MsgId>)
    requires SysInv(y) && SysEnabled(y, Local(p, e, lost))
    ensures SysInv(SysNext(y, Local(p, e, lost)))
  {
    hide Next, Enabled, ReplicaOk, Used, Envelopes, Accepted, Added;
    var z := SysNext(y, Local(p, e, lost));
    LocalPublished(y, p, e, lost);
    forall q | q in z.replicas ensures ReplicaOk(z, q) {
      if q == p { LocalPublisher(y, p, e, lost); } else { LocalOther(y, p, e, lost, q); }
    }
  }

  lemma LocalPublished(y: System, p: Pid, e: Step, lost: set<MsgId>)
    requires SysInv(y) && SysEnabled(y, Local(p, e, lost))
    ensures var z := SysNext(y, Local(p, e, lost)); forall id | id in z.published :: Used(z, id)
  {
    hide Next, Enabled, Inv, OutboxOk, Ordered, Faithful, Accounted, Used, EnvelopesMatch;
    var z := SysNext(y, Local(p, e, lost));
    var s := y.replicas[p];
    assert ReplicaOk(y, p);
    LocalReplica(s, e);
    EnvelopesSpec(Added(s, Next(s, e)), lost, p, s.own);
    SameUsed(y, z);
    hide ReplicaOk, Envelopes, Added, Accepted;
    forall id | id in z.published ensures Used(z, id) {
      if id !in Accepted(Added(s, Next(s, e)), lost) {
        assert Used(y, id);
      } else {
        FreshUsed(z, id, p);
      }
    }
  }

  lemma FreshUsed(z: System, id: MsgId, p: Pid)
    requires p in z.replicas && id.origin == Some(p) && id.k < z.replicas[p].own
    ensures Used(z, id)
  {
  }

  lemma SysNextKeeps(y: System, e: SystemStep)
    requires SysInv(y) && SysEnabled(y, e)
    ensures SysInv(SysNext(y, e))
  {
    hide SysInv, SysEnabled, SysNext;
    match e
    case Local(p, e, lost) => LocalKeeps(y, p, e, lost);
    case Deliver(p, i) => DeliverKeeps(y, p, i);
    case ApiPublish(m, message) => ApiKeeps(y, m, message);
  }

  ghost predicate IsSystemRun(states: seq<System>, steps: seq<SystemStep>) {
    && |states| == |steps| + 1
    && SysInitial(states[0])
    && forall i | 0 <= i < |steps| :: SysEnabled(states[i], steps[i]) && states[i + 1] == SysNext(states[i], steps[i])
  }

  lemma {:induction false} SystemRunKeeps(states: seq<System>, steps: seq<SystemStep>, i: nat)
    requires IsSystemRun(states, steps) && i < |states|
    ensures SysInv(states[i])
  {
    hide SysInv, SysNext, SysEnabled, SysInitial;
    if i == 0 {
      InitialOk(states[0]);
    } else {
      SystemRunKeeps(states, steps, i - 1);
      SysNextKeeps(states[i - 1], steps[i - 1]);
    }
  }

  // ---- what the clients see ----

  lemma {:induction false} InboxFrom(log: seq<Record>, c: ConnId, n: nat) returns (i: nat)
    requires n < |Inbox(log, c)|
    ensures i < |log| && c in log[i].audience && Inbox(log, c)[n] == Delivery(log[i].id, Payload(log[i].message))
  {
    hide Payload;
    var last := |log| - 1;
    if n < |Inbox(log[..last], c)| {
      i := InboxFrom(log[..last], c, n);
    } else {
      i := last;
    }
  }

  lemma {:induction false} InboxHas(log: seq<Record>, c: ConnId, i: nat) returns (n: nat)
    requires i < |log| && c in log[i].audience
    ensures n < |Inbox(log, c)| && Inbox(log, c)[n] == Delivery(log[i].id, Payload(log[i].message))
  {
    hide Payload;
    var last := |log| - 1;
    if i < last {
      n := InboxHas(log[..last], c, i);
    } else {
      n := |Inbox(log[..last], c)|;
    }
  }

  ghost predicate InOrder(ds: seq<Delivery>) {
    forall m, n | 0 <= m < n < |ds| && ds[m].id.origin == ds[n].id.origin :: ds[m].id.k < ds[n].id.k
  }

  lemma {:induction false} InboxInOrder(log: seq<Record>, c: ConnId)
    requires forall i, j | 0 <= i < j < |log| && log[i].id.origin == log[j].id.origin :: log[i].id.k < log[j].id.k
    ensures InOrder(Inbox(log, c))
  {
    hide Payload;
    if log != [] {
      var last := |log| - 1;
      InboxInOrder(log[..last], c);
      var before := Inbox(log[..last], c);
      forall m | 0 <= m < |before| && before[m].id.origin == log[last].id.origin
        ensures before[m].id.k < log[last].id.k
      {
        var i := InboxFrom(log[..last], c, m);
      }
    }
  }

  /**
   No client gets the same room message twice, and it gets the messages of one publisher in the order
   in which that publisher sent them.
   */
  lemma NoDuplicates(states: seq<System>, steps: seq<SystemStep>, t: nat, p: Pid, c: ConnId)
    requires IsSystemRun(states, steps) && t < |states| && p in states[t].replicas
    ensures var got := Got(states[t].replicas[p], c);
            && InOrder(got)
            && forall m, n | 0 <= m < n < |got| :: got[m].id != got[n].id
  {
    hide IsSystemRun, Inv, Faithful, Accounted, Inbox;
    SystemRunKeeps(states, steps, t);
    assert ReplicaOk(states[t], p);
    InboxInOrder(states[t].replicas[p].log, c);
  }

  /** A client has a broadcast of the log if and only if it was sent to the client, and then once. */
  lemma GotByAudience(states: seq<System>, steps: seq<SystemStep>, t: nat, p: Pid, i: nat, c: ConnId)
    requires IsSystemRun(states, steps) && t < |states| && p in states[t].replicas
    requires i < |states[t].replicas[p].log|
    ensures var s := states[t].replicas[p];
            var r := s.log[i];
            && (c in r.audience <==> Has(Got(s, c), r.id))
            && OnceShown(Got(s, c), r.id, Payload(r.message))
  {
    hide IsSystemRun, Faithful, Accounted, Inbox, RoomsAgree, UsersAgree, ConnsOk, Payload;
    SystemRunKeeps(states, steps, t);
    assert ReplicaOk(states[t], p);
    NoDuplicates(states, steps, t, p, c);
    var s := states[t].replicas[p];
    var r, got := s.log[i], Got(s, c);
    if c in r.audience { var n := InboxHas(s.log, c, i); }
    forall n | 0 <= n < |got| && got[n].id == r.id ensures c in r.audience && got[n].payload == Payload(r.message) {
      var j := InboxFrom(s.log, c, n);
      assert j == i;
    }
  }

  ghost predicate Has(got: seq<Delivery>, id: MsgId) {
    exists n | 0 <= n < |got| :: got[n].id == id
  }

  /** At most one of the deliveries is the broadcast `id`, and it shows `payload`. */
  ghost predicate OnceShown(got: seq<Delivery>, id: MsgId, payload: Value) {
    && (forall n | 0 <= n < |got| && got[n].id == id :: got[n].payload == payload)
    && forall m, n | 0 <= m < |got| && 0 <= n < |got| && got[m].id == got[n].id == id :: m == n
  }

  /** The replica that a step runs on, and the connection whose handler it runs, if any. */
  function At(e: SystemStep): Option<Pid> {
    if e.ApiPublish? then None else Some(e.p)
  }

  function Sender(e: SystemStep): Option<ConnId> {
    if e.Local? then Handler(e.e) else None
  }

  lemma SystemStepReaches(y: System, e: SystemStep, p: Pid)
    requires SysEnabled(y, e) && p in y.replicas
    ensures p in SysNext(y, e).replicas
    ensures var s, r := y.replicas[p], SysNext(y, e).replicas[p];
            if At(e) == Some(p) then SentToRooms(s, r, Sender(e)) else r == s
  {
    hide Next, Enabled, SentToRooms, Audience, Envelopes, Accepted, Append;
    match e
    case Local(q, step, _) => if q == p { StepReachesRooms(y.replicas[p], step); }
    case Deliver(q, i) =>
      if q == p {
        var env := y.inbox[p][i];
        RemoteIsEnabled(y.replicas[p], env);
        StepReachesRooms(y.replicas[p], Remote(env.id, env.model, env.message));
      }
    case ApiPublish(_, _) =>
  }

  lemma RemoteIsEnabled(s: Server, env: Envelope)
    ensures Enabled(s, Remote(env.id, env.model, env.message))
  {
  }

  /** A replica's log only grows. */
  lemma {:induction false} LogOnlyGrows(states: seq<System>, steps: seq<SystemStep>, k: nat, t: nat, p: Pid)
    requires IsSystemRun(states, steps) && k <= t < |states| && p in states[k].replicas
    ensures p in states[t].replicas && states[k].replicas[p].log <= states[t].replicas[p].log
  {
    hide SysNext, SysEnabled, SysInitial, Audience;
    if k < t {
      LogOnlyGrows(states, steps, k, t - 1, p);
      SystemStepReaches(states[t - 1], steps[t - 1], p);
    }
  }

  /**
   What replica p adds to its log in step k is held, ever after, by exactly the clients that were open members of the
   room when the step ran, without the one whose handler ran; each holds it once, with the normalised payload.
   */
  lemma HandledOnce(states: seq<System>, steps: seq<SystemStep>, k: nat, t: nat, p: Pid, i: nat, c: ConnId)
    requires IsSystemRun(states, steps) && k < t < |states| && p in states[k].replicas && p in states[k + 1].replicas
    requires |states[k].replicas[p].log| <= i < |states[k + 1].replicas[p].log|
    ensures p in states[t].replicas && i < |states[t].replicas[p].log| && At(steps[k]) == Some(p)
    ensures var s, r, got := states[k].replicas[p], states[k + 1].replicas[p].log[i], Got(states[t].replicas[p], c);
            && (c in Members(s, r.model) && IsOpen(s, c) && Sender(steps[k]) != Some(c) <==> Has(got, r.id))
            && OnceShown(got, r.id, Payload(r.message))
  {
    SystemStepReaches(states[k], steps[k], p);
    hide IsSystemRun, Has, OnceShown, Payload, Got;
    LogOnlyGrows(states, steps, k + 1, t, p);
    GotByAudience(states, steps, t, p, i, c);
  }

  lemma {:induction false} HandledWhen(states: seq<System>, steps: seq<SystemStep>, t: nat, p: Pid, i: nat)
    returns (k: nat)
    requires IsSystemRun(states, steps) && t < |states| && p in states[t].replicas
    requires i < |states[t].replicas[p].log|
    ensures k < t && p in states[k].replicas && p in states[k + 1].replicas
    ensures |states[k].replicas[p].log| <= i < |states[k + 1].replicas[p].log|
  {
    hide SysNext, SysEnabled, SentToRooms;
    assert t > 0 by { StartsEmpty(states[0]); }
    SameReplicas(states[t - 1], steps[t - 1]);
    if |states[t - 1].replicas[p].log| <= i {
      k := t - 1;
    } else {
      k := HandledWhen(states, steps, t - 1, p, i);
    }
  }

  lemma StartsEmpty(y: System)
    requires SysInitial(y)
    ensures forall p | p in y.replicas :: y.replicas[p].log == []
  {
  }

  lemma SameReplicas(y: System, e: SystemStep)
    requires SysEnabled(y, e)
    ensures SysNext(y, e).replicas.Keys == y.replicas.Keys
  {
    hide Next, Enabled, Envelopes, Accepted, Append;
  }

  /**
   Each broadcast in the log of a replica was handled there in one step k < t, and is held by exactly the clients that
   were open members of its room when that step ran, but the sender: by each of them once, with the normalised payload.
   */
  lemma ExactlyOnce(states: seq<System>, steps: seq<SystemStep>, t: nat, p: Pid, i: nat, c: ConnId) returns (k: nat)
    requires IsSystemRun(states, steps) && t < |states| && p in states[t].replicas
    requires i < |states[t].replicas[p].log|
    ensures k < t && p in states[k].replicas && p in states[k + 1].replicas && At(steps[k]) == Some(p)
    ensures |states[k].replicas[p].log| <= i < |states[k + 1].replicas[p].log|
    ensures var s, r, got := states[k].replicas[p], states[t].replicas[p].log[i], Got(states[t].replicas[p], c);
            && r.sender == Sender(steps[k])
            && (c in Members(s, r.model) && IsOpen(s, c) && r.sender != Some(c) <==> Has(got, r.id))
            && OnceShown(got, r.id, Payload(r.message))
  {
    k := HandledWhen(states, steps, t, p, i);
    SystemStepReaches(states[k], steps[k], p);
    hide IsSystemRun, Has, OnceShown, Payload, Got;
    LogOnlyGrows(states, steps, k + 1, t, p);
    HandledOnce(states, steps, k, t, p, i, c);
  }

  /**
   A publication reaches every replica: it has been handled there, or waits there, never both for a
   publication from elsewhere; with nothing waiting, every replica has handled it, whoever sent it.
   */
  lemma EveryReplicaHandles(states: seq<System>, steps: seq<SystemStep>, t: nat, p: Pid, id: MsgId)
    requires IsSystemRun(states, steps) && t < |states| && p in states[t].replicas && id in states[t].published
    ensures var y := states[t];
            && p in y.inbox
            && (InLog(y.replicas[p].log, id) || InBox(y.inbox[p], id))
            && (id.origin != Some(p) ==> !(InLog(y.replicas[p].log, id) && InBox(y.inbox[p], id)))
            && (id.origin == Some(p) || y.inbox[p] == [] ==> InLog(y.replicas[p].log, id))
  {
    hide IsSystemRun, Faithful, Inv, OutboxOk;
    SystemRunKeeps(states, steps, t);
    assert ReplicaOk(states[t], p);
  }

  lemma RecordFacts(states: seq<System>, steps: seq<SystemStep>, t: nat, p: Pid, i: nat)
    requires IsSystemRun(states, steps) && t < |states| && p in states[t].replicas
    requires i < |states[t].replicas[p].log|
    ensures var a := states[t].replicas[p].log[i];
            if a.id.origin == Some(p) then
              && IsEvent(a.message)
              && (a.id in states[t].published ==>
                    a.model == states[t].published[a.id].model && a.message == states[t].published[a.id].message)
            else
              && a.id in states[t].published && a.model == states[t].published[a.id].model
              && a.message == states[t].published[a.id].message.OnWire()
  {
    hide IsSystemRun, Accounted, Inv, OutboxOk, Ordered, AllUsed, Value.OnWire, IsEvent;
    SystemRunKeeps(states, steps, t);
    assert ReplicaOk(states[t], p);
  }

  /**
   Two replicas that have both handled a broadcast. If neither made it they show it alike. If one made it, it is an
   event of the replica's own making, and they show it alike if and only if that event carries no infinity where the
   normaliser chooses.
   */
  lemma SamePayload(states: seq<System>, steps: seq<SystemStep>, t: nat, p: Pid, q: Pid, i: nat, j: nat)
    requires IsSystemRun(states, steps) && t < |states| && p in states[t].replicas && q in states[t].replicas && p != q
    requires i < |states[t].replicas[p].log| && j < |states[t].replicas[q].log|
    requires states[t].replicas[p].log[i].id == states[t].replicas[q].log[j].id
    ensures var a, b := states[t].replicas[p].log[i], states[t].replicas[q].log[j];
            && a.model == b.model
            && (a.id.origin != Some(p) && a.id.origin != Some(q) ==> Payload(a.message) == Payload(b.message))
            && (a.id.origin == Some(p) ==>
                  && (exists e: RoomEvent :: a.message == e.Message())
                  && forall e: RoomEvent | a.message == e.Message() ::
                       Payload(a.message) == Payload(b.message) <==> !e.CarriesInfinity())
  {
    hide IsSystemRun, Payload, Value.OnWire, RoomEvent.Message, RoomEvent.CarriesInfinity;
    RecordFacts(states, steps, t, p, i);
    RecordFacts(states, steps, t, q, j);
    var a, b := states[t].replicas[p].log[i], states[t].replicas[q].log[j];
    if a.id.origin == Some(p) {
      forall e: RoomEvent | a.message == e.Message()
        ensures Payload(a.message) == Payload(b.message) <==> !e.CarriesInfinity()
      {
        ReplicasShowTheSame(e);
      }
    }
  }

  // ---- one publication, one relayed event, one cursor move ----

  lemma DeliverRecord(s: Server, id: MsgId, m: Model, message: Value)
    ensures var r := Next(s, Remote(id, m, message));
            if id.origin == Some(s.pid) then r == s
            else |r.log| == |s.log| + 1 && r.log[|s.log|].id == id
                 && r.log[|s.log|].model == m && r.log[|s.log|].message == message
  {
    hide Payload, SendTo, Audience;
  }

  /**
   When replica p handles a publication from elsewhere, exactly the open members of its room there have it from then
   on, once, normalised from the text that arrived; its own echo changes nothing.
   */
  lemma PublicationReachesRoom(states: seq<System>, steps: seq<SystemStep>, k: nat, t: nat, p: Pid, i: nat, c: ConnId)
    requires IsSystemRun(states, steps) && k < t < |states| && steps[k] == Deliver(p, i)
    ensures p in states[k].replicas && p in states[k].inbox && i < |states[k].inbox[p]| && p in states[t].replicas
    ensures var s, env, got := states[k].replicas[p], states[k].inbox[p][i], Got(states[t].replicas[p], c);
            if env.id.origin == Some(p) then p in states[k + 1].replicas && states[k + 1].replicas[p] == s
            else
              && (c in Members(s, env.model) && IsOpen(s, c) <==> Has(got, env.id))
              && OnceShown(got, env.id, Payload(env.message))
  {
    assert SysEnabled(states[k], steps[k]) && states[k + 1] == SysNext(states[k], steps[k]);
    hide IsSystemRun, Has, OnceShown, Payload, Got, Next, Inv, OutboxOk, Ordered, AllUsed, Faithful, Accounted;
    SystemRunKeeps(states, steps, k);
    assert ReplicaOk(states[k], p);
    var s, env := states[k].replicas[p], states[k].inbox[p][i];
    DeliverRecord(s, env.id, env.model, env.message);
    LogOnlyGrows(states, steps, k, t, p);
    if env.id.origin != Some(p) { HandledOnce(states, steps, k, t, p, |s.log|, c); }
  }

  /** A relay or a cursor move that is sent to nobody: no room, a malformed vector, or too soon. */
  predicate Refused(s: Server, c: ConnId, msg: ClientMessage)
    requires c in s.conns
  {
    || s.conns[c].current.None?
    || (msg.CursorMove? && (!IsVector3(msg.position) || !(msg.normal.Undefined? || IsVector3(msg.normal))))
    || (msg.CursorMove? && s.now - s.conns[c].lastCursor < s.throttle)
  }

  /** What the others are shown of a relay or of a cursor move. */
  ghost predicate Shows(p: Value, user: User, msg: ClientMessage) {
    match msg
    case Relay(kind, data) => ShowsRelay(p, kind, user, data)
    case CursorMove(position, _) => ShowsCursor(p, user, position)
    case _ => true
  }

  lemma MessageRecord(s: Server, c: ConnId, msg: ClientMessage)
    requires c in s.conns && s.conns[c].phase.Ready? && (msg.Relay? || msg.CursorMove?)
    ensures var r, user := Next(s, Message(c, msg)), s.conns[c].user;
            if Refused(s, c, msg) then r.log == s.log && r.outbox == s.outbox
            else s.conns[c].current.Some? && |r.log| == |s.log| + 1
                 && r.log[|s.log|].id == MsgId(Some(s.pid), s.own)
                 && r.log[|s.log|].message == (if msg.Relay? then Relayed(msg.kind, user, msg.data)
                                               else CursorMoved(user, msg.position)).Message()
                 && r.log[|s.log|].model == s.conns[c].current.value
  {
    hide Payload, SendTo, Audience, RoomEvent.Message, IsVector3;
  }

  lemma MessageShown(s: Server, c: ConnId, msg: ClientMessage)
    requires c in s.conns && s.conns[c].phase.Ready? && (msg.Relay? || msg.CursorMove?) && !Refused(s, c, msg)
    ensures |Next(s, Message(c, msg)).log| == |s.log| + 1
    ensures Shows(Payload(Next(s, Message(c, msg)).log[|s.log|].message), s.conns[c].user, msg)
  {
    MessageRecord(s, c, msg);
    hide Next, Payload, RoomEvent.Message, ShowsRelay, ShowsCursor, IsVector3;
    match msg
    case Relay(kind, data) => RelayShown(kind, s.conns[c].user, data);
    case CursorMove(position, _) => CursorShown(s.conns[c].user, position);
    case _ =>
  }

  lemma LocalStep(states: seq<System>, steps: seq<SystemStep>, k: nat, p: Pid)
    requires IsSystemRun(states, steps) && k < |steps| && steps[k].Local? && steps[k].p == p
    ensures p in states[k].replicas && p in states[k + 1].replicas && states[k].replicas[p].pid == p
    ensures Enabled(states[k].replicas[p], steps[k].e)
    ensures states[k + 1].replicas[p] == Next(states[k].replicas[p], steps[k].e)
  {
    assert SysEnabled(states[k], steps[k]) && states[k + 1] == SysNext(states[k], steps[k]);
    hide IsSystemRun, Next, Enabled, Inv, OutboxOk, Ordered, AllUsed, Faithful, Accounted, Envelopes, Accepted;
    SystemRunKeeps(states, steps, k);
    assert ReplicaOk(states[k], p);
  }

  /**
   A relayed event or a cursor move that is not refused is held from then on by exactly the other clients that were
   open members of the sender's current room, once each, and shows them what was sent; a refused one is sent to nobody.
   */
  lemma MessageReachesRoom(states: seq<System>, steps: seq<SystemStep>, k: nat, t: nat,
                           p: Pid, c: ConnId, msg: ClientMessage, d: ConnId) returns (payload: Value)
    requires IsSystemRun(states, steps) && k < t < |states| && p in states[k].replicas && c in states[k].replicas[p].conns
    requires steps[k].Local? && steps[k].p == p && steps[k].e == Message(c, msg)
    requires states[k].replicas[p].conns[c].phase.Ready? && (msg.Relay? || msg.CursorMove?)
    ensures p in states[k + 1].replicas && p in states[t].replicas
    ensures var s, got := states[k].replicas[p], Got(states[t].replicas[p], d);
            if Refused(s, c, msg) then states[k + 1].replicas[p].outbox == s.outbox
            else
              && s.conns[c].current.Some?
              && (d in Members(s, s.conns[c].current.value) && IsOpen(s, d) && d != c
                  <==> Has(got, MsgId(Some(p), s.own)))
              && OnceShown(got, MsgId(Some(p), s.own), payload)
              && Shows(payload, s.conns[c].user, msg)
  {
    LocalStep(states, steps, k, p);
    hide IsSystemRun, Has, OnceShown, Payload, Got, Next, Refused, Shows, Enabled, RoomEvent.Message, Members, SysNext,
      SysEnabled;
    var s := states[k].replicas[p];
    MessageRecord(s, c, msg);
    LogOnlyGrows(states, steps, k, t, p);
    payload := Null;
    if !Refused(s, c, msg) {
      payload := Payload(states[k + 1].replicas[p].log[|s.log|].message);
      MessageShown(s, c, msg);
      HandledOnce(states, steps, k, t, p, |s.log|, d);
    }
  }
}
