/**
 The messages a replica broadcasts to a room, and when every replica shows the same one.
 A replica delivers the message object to its own clients and sends JSON.stringify of the same
 object to the others, who parse it before they normalise it.
 */
module RoomEvents {
  import opened Json

  type User = s: string | s != "" witness "u"

  datatype RoomEvent =
    | UserJoined(user: User, name: Value)
    | UserLeft(user: User)
    | CursorMoved(user: User, position: Value)
    | Relayed(kind: RelayKind, user: User, data: Value)
  {
    function Message(): Value {
      match this
      case UserJoined(user, name) =>
        Obj(map[Event := Str("USER_JOINED"),
                User := Obj(map[Id := Str(user), Name := name, Avatar := Null])])
      case UserLeft(user) => Obj(map[Event := Str("USER_LEFT"), UserIdSnake := Str(user)])
      case CursorMoved(user, position) =>
        Obj(map[Event := Str("CURSOR_MOVED"), UserIdSnake := Str(user), Position := position])
      case Relayed(kind, user, data) =>
        Obj(map[Event := Str(EventName(kind)), UserId := Str(user), Data := data])
    }

    /** A number too large for a double sits where the normaliser chooses between two fields. */
    predicate CarriesInfinity() {
      Relayed? &&
      match kind
      case AnnotationCreated => data.IsInfinite()
      case AnnotationUpdated => data.Get(AnnotationId).IsInfinite() || data.Get(Status).IsInfinite()
      case AnnotationDeleted => data.Get(AnnotationId).IsInfinite()
      case ModelSync => data.IsInfinite()
    }
  }

  /** A message that a replica makes itself. */
  ghost predicate IsEvent(message: Value) {
    exists e: RoomEvent :: message == e.Message()
  }

  lemma EventIs(e: RoomEvent)
    ensures IsEvent(e.Message())
  {
  }

  /** What the clients of the publishing replica receive equals what every other replica sends out. */
  predicate SameEverywhere(message: Value) {
    Payload(message.OnWire()) == Payload(message)
  }

  lemma OrOnWire(a: Value, b: Value)
    ensures !a.IsInfinite() ==> a.OnWire().Or(b.OnWire()) == a.Or(b).OnWire()
    ensures a.IsInfinite() ==> a.OnWire().Or(b.OnWire()) == b.OnWire() && a.Or(b).OnWire() == Null
  {
    OnWireTruthy(a);
  }

  lemma ChoiceOnWire(data: Value, field: Key)
    ensures var v := data.Get(field);
            var w := data.OnWire().Get(field);
            if v.IsInfinite() then w.Or(Undefined).OnWire() == Undefined && v.Or(Undefined).OnWire() == Null
            else w.Or(Undefined).OnWire() == v.Or(Undefined).OnWire()
  {
    OnWireGet(data, field);
    OrOnWire(data.Get(field), Undefined);
    OnWireIdempotent(data.Get(field).Or(Undefined));
  }

  lemma RelayMessage(kind: RelayKind, user: User, data: Value)
    ensures var m := Relayed(kind, user, data).Message();
            && m.Obj? && HasKind(m, kind)
            && m.Get(Data) == data && m.Get(UserId) == Str(user)
            && forall k | k in {Annotation, AnnotationId, Status, UpdatedBy} :: m.Get(k) == Undefined
  {
    hide EventName;
  }

  lemma RelayOnWire(kind: RelayKind, user: User, data: Value)
    ensures var w := Relayed(kind, user, data).Message().OnWire();
            && w.Obj?
            && w.Get(Event) == Str(EventName(kind))
            && w.Get(UserId) == Str(user)
            && w.Get(Data) == data.OnWire()
            && w.Get(Annotation) == Undefined
            && w.Get(AnnotationId) == Undefined
            && w.Get(Status) == Undefined
  {
    var m := Relayed(kind, user, data).Message();
    RelayMessage(kind, user, data);
    hide EventName, RoomEvent.Message;
    OnWireGet(m, Event);
    OnWireGet(m, UserId);
    OnWireGet(m, Data);
    OnWireGet(m, Annotation);
    OnWireGet(m, AnnotationId);
    OnWireGet(m, Status);
  }

  /** `w` is what another replica parses when it is sent the relay message `m`. */
  ghost predicate WireCopy(m: Value, w: Value, user: User, data: Value) {
    && m.Get(Data) == data && w.Get(Data) == data.OnWire()
    && m.Get(UserId) == w.Get(UserId) == Str(user)
    && forall k | k in {Annotation, AnnotationId, Status} :: m.Get(k) == w.Get(k) == Undefined
  }

  lemma CreatedShape(m: Value, w: Value, user: User, data: Value)
    requires WireCopy(m, w, user, data)
    ensures Shape(AnnotationCreated, w).OnWire() == Shape(AnnotationCreated, m).OnWire() <==> !data.IsInfinite()
  {
    var empty := Obj(map[]);
    OrOnWire(data, empty);
    OnWireIdempotent(data.Or(empty));
    assert empty.OnWire() == empty;
    OnWireGet(Shape(AnnotationCreated, m), Annotation);
    OnWireGet(Shape(AnnotationCreated, w), Annotation);
  }

  lemma SyncShape(m: Value, w: Value, user: User, data: Value)
    requires WireCopy(m, w, user, data)
    ensures Shape(ModelSync, w).OnWire() == Shape(ModelSync, m).OnWire() <==> !data.IsInfinite()
  {
    var empty := Obj(map[]);
    OrOnWire(data, empty);
    OnWireIdempotent(data.Or(empty));
    assert empty.OnWire() == empty;
    OnWireGet(Shape(ModelSync, m), Data);
    OnWireGet(Shape(ModelSync, w), Data);
  }

  lemma DeletedShape(m: Value, w: Value, user: User, data: Value)
    requires WireCopy(m, w, user, data)
    ensures Shape(AnnotationDeleted, w).OnWire() == Shape(AnnotationDeleted, m).OnWire()
            <==> !data.Get(AnnotationId).IsInfinite()
  {
    ChoiceOnWire(data, AnnotationId);
    OnWireGet(Shape(AnnotationDeleted, m), AnnotationId);
    OnWireGet(Shape(AnnotationDeleted, w), AnnotationId);
    if !data.Get(AnnotationId).IsInfinite() {
      assert Shape(AnnotationDeleted, w).OnWire().fields == Shape(AnnotationDeleted, m).OnWire().fields;
    }
  }

  lemma SameFieldsOnWire(a: Value, b: Value)
    requires a.Obj? && b.Obj?
    requires forall k :: a.Get(k).OnWire() == b.Get(k).OnWire()
    ensures a.OnWire() == b.OnWire()
  {
    forall k ensures a.OnWire().Get(k) == b.OnWire().Get(k) {
      OnWireGet(a, k);
      OnWireGet(b, k);
    }
    NoUndefinedFields(a);
    NoUndefinedFields(b);
    var x, y := a.OnWire(), b.OnWire();
    hide Value.OnWire;
    SameFields(x, y);
  }

  lemma NoUndefinedFields(a: Value)
    requires a.Obj?
    ensures a.OnWire().Obj? && forall k | k in a.OnWire().fields :: a.OnWire().fields[k] != Undefined
  {
  }

  lemma SameFields(x: Value, y: Value)
    requires x.Obj? && y.Obj? && forall k :: x.Get(k) == y.Get(k)
    requires forall k | k in x.fields :: x.fields[k] != Undefined
    requires forall k | k in y.fields :: y.fields[k] != Undefined
    ensures x == y
  {
    assert forall k :: k in x.fields <==> x.Get(k) != Undefined;
    assert forall k :: k in y.fields <==> y.Get(k) != Undefined;
    assert x.fields == y.fields;
  }

  lemma UpdatedShape(m: Value, w: Value, user: User, data: Value)
    requires WireCopy(m, w, user, data)
    ensures Shape(AnnotationUpdated, w).OnWire() == Shape(AnnotationUpdated, m).OnWire()
            <==> !data.Get(AnnotationId).IsInfinite() && !data.Get(Status).IsInfinite()
  {
    var a, b := Shape(AnnotationUpdated, m), Shape(AnnotationUpdated, w);
    UpdatedFields(m, w, user, data);
    if !data.Get(AnnotationId).IsInfinite() && !data.Get(Status).IsInfinite() {
      forall k ensures a.Get(k).OnWire() == b.Get(k).OnWire() {
        assert k !in {Event, AnnotationId, Status, UpdatedBy} ==> k !in a.fields && k !in b.fields;
      }
      SameFieldsOnWire(a, b);
    } else {
      var k := if data.Get(AnnotationId).IsInfinite() then AnnotationId else Status;
      OnWireGet(a, k);
      OnWireGet(b, k);
    }
  }

  lemma UpdatedFields(m: Value, w: Value, user: User, data: Value)
    requires WireCopy(m, w, user, data)
    ensures var a, b := Shape(AnnotationUpdated, m), Shape(AnnotationUpdated, w);
            && a.Get(Event) == b.Get(Event)
            && a.Get(UpdatedBy) == b.Get(UpdatedBy) == Str(user)
            && (a.Get(AnnotationId).OnWire() == b.Get(AnnotationId).OnWire() <==> !data.Get(AnnotationId).IsInfinite())
            && (a.Get(Status).OnWire() == b.Get(Status).OnWire() <==> !data.Get(Status).IsInfinite())
  {
    hide Value.OnWire;
    ChoiceOnWire(data, AnnotationId);
    ChoiceOnWire(data, Status);
    assert Null.OnWire() != Undefined by { NullOnWire(); }
  }

  lemma NullOnWire()
    ensures Null.OnWire() == Null && Undefined.OnWire() == Undefined
  {
  }

  lemma RelaysShowTheSame(kind: RelayKind, user: User, data: Value)
    ensures var e := Relayed(kind, user, data); SameEverywhere(e.Message()) <==> !e.CarriesInfinity()
  {
    hide EventName, RoomEvent.Message, NormalizeRoomEvent, Shape, Value.OnWire, Value.Get;
    var m := Relayed(kind, user, data).Message();
    RelayMessage(kind, user, data);
    RelayOnWire(kind, user, data);
    NormalizedByKind(m, kind);
    NormalizedByKind(m.OnWire(), kind);
    match kind
    case AnnotationCreated => CreatedShape(m, m.OnWire(), user, data);
    case AnnotationUpdated => UpdatedShape(m, m.OnWire(), user, data);
    case AnnotationDeleted => DeletedShape(m, m.OnWire(), user, data);
    case ModelSync => SyncShape(m, m.OnWire(), user, data);
  }

  lemma NoRelayKind(e: RoomEvent, kind: RelayKind)
    requires !e.Relayed?
    ensures !HasKind(e.Message(), kind) && !HasKind(e.Message().OnWire(), kind)
  {
    OnWireGet(e.Message(), Event);
    assert |EventName(kind)| >= 10;
    if e.CursorMoved? { assert EventName(kind)[0] != 'C'; }
    if e.UserJoined? { assert EventName(kind)[0] != 'U'; }
  }

  /** The replicas agree on an event exactly when it carries no infinity in a field that is chosen by `||`. */
  lemma ReplicasShowTheSame(e: RoomEvent)
    ensures SameEverywhere(e.Message()) <==> !e.CarriesInfinity()
  {
    match e
    case Relayed(kind, user, data) =>
      RelaysShowTheSame(kind, user, data);
    case _ =>
      OnWireIdempotent(e.Message());
      forall kind ensures !HasKind(e.Message(), kind) && !HasKind(e.Message().OnWire(), kind) {
        NoRelayKind(e, kind);
      }
  }

  /** What the API publishes for an event: the data without a sender. */
  function ApiMessage(kind: RelayKind, data: Value): Value {
    Obj(map[Event := Str(EventName(kind)), Data := data])
  }

  /** `v || undefined`, as a browser sees it. */
  function Shown(v: Value): Value {
    v.Or(Undefined).OnWire()
  }

  ghost predicate ShowsRelay(p: Value, kind: RelayKind, user: User, data: Value) {
    && p.Obj?
    && match kind
       case AnnotationCreated =>
         && p.Get(Event) == Str("ANNOTATION_CREATED") && p.fields.Keys == {Event, Annotation}
         && p.Get(Annotation) == data.Or(Obj(map[])).OnWire()
       case AnnotationUpdated =>
         && p.Get(Event) == Str("ANNOTATION_UPDATED") && p.fields.Keys <= {Event, AnnotationId, Status, UpdatedBy}
         && p.Get(AnnotationId) == Shown(data.Get(AnnotationId)) && p.Get(Status) == Shown(data.Get(Status))
         && p.Get(UpdatedBy) == Str(user)
       case AnnotationDeleted =>
         && p.Get(Event) == Str("ANNOTATION_DELETED") && p.fields.Keys <= {Event, AnnotationId}
         && p.Get(AnnotationId) == Shown(data.Get(AnnotationId))
       case ModelSync =>
         && p.Get(Event) == Str("MODEL_SYNC") && p.fields.Keys == {Event, Data}
         && p.Get(Data) == data.Or(Obj(map[])).OnWire()
  }

  /** The fields a browser is shown for a relayed event, and that there are no others. */
  lemma RelayShown(kind: RelayKind, user: User, data: Value)
    ensures ShowsRelay(Payload(Relayed(kind, user, data).Message()), kind, user, data)
  {
    hide EventName, RoomEvent.Message, NormalizeRoomEvent;
    var m := Relayed(kind, user, data).Message();
    RelayMessage(kind, user, data);
    NormalizedByKind(m, kind);
    ShapeShown(kind, m);
    assert Shape(kind, m).Get(Event) == Str(EventName(kind)) by { KindShown(kind, m); }
  }

  lemma KindShown(kind: RelayKind, m: Value)
    ensures Shape(kind, m).Get(Event) == Str(EventName(kind)) == Str(EventName(kind)).OnWire()
  {
    hide Value.Or;
  }

  lemma ShapeShown(kind: RelayKind, m: Value)
    ensures var p, s := Shape(kind, m).OnWire(), Shape(kind, m);
            && p.Obj? && s.Obj? && p.fields.Keys <= s.fields.Keys
            && (forall k :: p.Get(k) == s.Get(k).OnWire())
            && (kind.AnnotationCreated? ==> p.fields.Keys == {Event, Annotation})
            && (kind.ModelSync? ==> p.fields.Keys == {Event, Data})
  {
    forall k ensures Shape(kind, m).OnWire().Get(k) == Shape(kind, m).Get(k).OnWire() {
      OnWireGet(Shape(kind, m), k);
    }
  }

  // ---- what presence and cursor events show ----

  ghost predicate ShowsJoin(p: Value, user: User, name: Value) {
    && p.Obj? && p.fields.Keys == {Event, Key.User} && p.Get(Event) == Str("USER_JOINED")
    && var who := p.Get(Key.User);
       && who.Obj? && who.fields.Keys == {Id, Name, Avatar}
       && who.Get(Id) == Str(user) && who.Get(Name) == name && who.Get(Avatar) == Null
  }

  ghost predicate ShowsLeave(p: Value, user: User) {
    && p.Obj? && p.fields.Keys == {Event, UserIdSnake}
    && p.Get(Event) == Str("USER_LEFT") && p.Get(UserIdSnake) == Str(user)
  }

  ghost predicate ShowsCursor(p: Value, user: User, position: Value) {
    && p.Obj? && p.fields.Keys == {Event, UserIdSnake, Position}
    && p.Get(Event) == Str("CURSOR_MOVED") && p.Get(UserIdSnake) == Str(user) && p.Get(Position) == position
  }

  /** Events that are not relays are shown as they are. */
  lemma NotNormalized(e: RoomEvent)
    requires !e.Relayed?
    ensures NormalizeRoomEvent(e.Message()) == e.Message()
  {
    forall kind ensures !HasKind(e.Message(), kind) { NoRelayKind(e, kind); }
  }

  /** A new member is shown with id, name and no avatar; a name is a text or null. */
  lemma JoinShown(user: User, name: Value)
    requires name.Str? || name.Null?
    ensures ShowsJoin(Payload(UserJoined(user, name).Message()), user, name)
  {
    NotNormalized(UserJoined(user, name));
    hide NormalizeRoomEvent;
    var m := UserJoined(user, name).Message();
    PlainOnWire(m.Get(Key.User));
    assert m.OnWire().fields.Keys == {Event, Key.User};
    OnWireGet(m, Event);
    OnWireGet(m, Key.User);
    hide Value.OnWire;
  }

  predicate Plain(v: Value) {
    v.Str? || v.Null?
  }

  /** An object of texts and nulls is what it was after JSON. */
  lemma PlainOnWire(v: Value)
    requires v.Obj? && forall k | k in v.fields :: Plain(v.fields[k])
    ensures v.OnWire() == v
  {
    assert v.OnWire().fields == v.fields;
  }

  /** The positions that are accepted: three finite numbers, in an array of just these. */
  lemma Vector3Is(v: Value)
    ensures IsVector3(v) <==> exists x, y, z :: v == Arr([Num(Finite(x)), Num(Finite(y)), Num(Finite(z))])
  {
    if IsVector3(v) {
      assert v.items == [v.items[0], v.items[1], v.items[2]];
      assert v == Arr([Num(Finite(v.items[0].n.value)), Num(Finite(v.items[1].n.value)), Num(Finite(v.items[2].n.value))]);
    }
  }

  lemma LeaveShown(user: User)
    ensures ShowsLeave(Payload(UserLeft(user).Message()), user)
  {
    NotNormalized(UserLeft(user));
    hide NormalizeRoomEvent;
    PlainOnWire(UserLeft(user).Message());
    hide Value.OnWire;
  }

  /** A cursor is shown where it is: three finite numbers survive JSON. */
  lemma CursorShown(user: User, position: Value)
    requires IsVector3(position)
    ensures ShowsCursor(Payload(CursorMoved(user, position).Message()), user, position)
  {
    NotNormalized(CursorMoved(user, position));
    hide NormalizeRoomEvent;
    assert position.OnWire().items == position.items;
    OnWireGet(CursorMoved(user, position).Message(), Position);
  }

  /**
   The two envelopes, a client's and the API's, are shown alike, except that an update names the sender in one and
   `updated_by` in the other: they agree if and only if these are the same.
   */
  lemma ClientAndApiAlike(kind: RelayKind, user: User, data: Value)
    ensures Payload(Relayed(kind, user, data).Message()) == Payload(ApiMessage(kind, data)) <==>
            kind != AnnotationUpdated || Shown(data.Get(UpdatedBy)) == Str(user)
  {
    var m, a := Relayed(kind, user, data).Message(), ApiMessage(kind, data);
    RelayMessage(kind, user, data);
    assert HasKind(a, kind) && a.Get(Data) == data && a.Get(UserId) == a.Get(UpdatedBy) == Undefined;
    NormalizedByKind(m, kind);
    NormalizedByKind(a, kind);
    hide EventName, RoomEvent.Message, NormalizeRoomEvent, ApiMessage, HasKind, Value.OnWire;
    if kind == AnnotationUpdated {
      OnWireGet(Shape(kind, m), UpdatedBy);
      OnWireGet(Shape(kind, a), UpdatedBy);
      assert Str(user).OnWire() == Str(user) by { StrOnWire(user); }
      if Shown(data.Get(UpdatedBy)) == Str(user) { UpdatedAlike(m, a, user, data); }
    } else {
      OthersAlike(kind, user, data);
    }
  }

  lemma StrOnWire(text: string)
    ensures Str(text).OnWire() == Str(text)
  {
  }

  lemma OthersAlike(kind: RelayKind, user: User, data: Value)
    requires kind != AnnotationUpdated
    ensures Shape(kind, Relayed(kind, user, data).Message()) == Shape(kind, ApiMessage(kind, data))
  {
    hide EventName, Value.OnWire;
  }

  lemma UpdatedAlike(m: Value, a: Value, user: User, data: Value)
    requires m == Relayed(AnnotationUpdated, user, data).Message() && a == ApiMessage(AnnotationUpdated, data)
    requires Shown(data.Get(UpdatedBy)) == Str(user)
    ensures Shape(AnnotationUpdated, m).OnWire() == Shape(AnnotationUpdated, a).OnWire()
  {
    var x, y := Shape(AnnotationUpdated, m), Shape(AnnotationUpdated, a);
    forall k ensures x.Get(k).OnWire() == y.Get(k).OnWire() {}
    SameFieldsOnWire(x, y);
  }

  /** The difference: data that is a number too large for a double is an annotation of null here and an empty one there. */
  lemma InfinityShown(user: User)
    ensures var m := Relayed(AnnotationCreated, user, Num(Infinite(false))).Message();
            && Payload(m).Get(Annotation) == Null
            && Payload(m.OnWire()).Get(Annotation) == Obj(map[])
            && !SameEverywhere(m)
  {
    var e := Relayed(AnnotationCreated, user, Num(Infinite(false)));
    RelayShown(AnnotationCreated, user, e.data);
    RelayOnWire(AnnotationCreated, user, e.data);
    NormalizedByKind(e.Message().OnWire(), AnnotationCreated);
    OnWireGet(Shape(AnnotationCreated, e.Message().OnWire()), Annotation);
    ReplicasShowTheSame(e);
  }
}
