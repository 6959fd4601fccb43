/**
 JavaScript values as the websocket server sees them: what JSON.parse returns, what property
 access and `||` do with it, and what survives JSON.stringify. The last part is the event
 normalisation that every room message goes through before it is sent to a browser.
 */
module Json {

  /** JSON.parse("1e999") is Infinity, and JSON.stringify writes Infinity back as null. */
  datatype Number = Finite(value: real) | Infinite(negative: bool)

  /** Property names. The ones this server reads or writes have a constructor each; `Other` is any other text. */
  datatype Key =
    | Event | ModelId | Data | Annotation | AnnotationId | Status | UpdatedBy | UserId | UserIdSnake
    | User | Id | Name | Avatar | Position | Normal
    | Other(text: string)

  datatype Value =
    | Undefined
    | Null
    | Bool(b: bool)
    | Num(n: Number)
    | Str(s: string)
    | Arr(items: seq<Value>)
    | Obj(fields: map<Key, Value>)
  {
    predicate Truthy() {
      match this
      case Undefined => false
      case Null => false
      case Bool(b) => b
      case Num(n) => n != Finite(0.0)
      case Str(s) => s != ""
      case Arr(_) => true
      case Obj(_) => true
    }

    predicate IsInfinite() {
      Num? && n.Infinite?
    }

    /** `v?.name` */
    function Get(name: Key): Value {
      if Obj? && name in fields then fields[name] else Undefined
    }

    /** `this || other` */
    function Or(other: Value): Value {
      if Truthy() then this else other
    }

    /** JSON.parse(JSON.stringify(v)); an undefined property is dropped, an undefined item becomes null. */
    function OnWire(): Value {
      match this
      case Num(n) => if n.Infinite? then Null else this
      case Arr(items) =>
        Arr(seq(|items|, i requires 0 <= i < |items| =>
          if items[i].Undefined? then Null else items[i].OnWire()))
      case Obj(fields) =>
        Obj(map k | k in fields && !fields[k].Undefined? :: fields[k].OnWire())
      case _ => this
    }
  }

  /** A tuple [x, y, z] of finite numbers. */
  predicate IsVector3(v: Value) {
    v.Arr? && |v.items| == 3 && forall i | 0 <= i < 3 :: v.items[i].Num? && v.items[i].n.Finite?
  }

  datatype RelayKind = AnnotationCreated | AnnotationUpdated | AnnotationDeleted | ModelSync

  function EventName(kind: RelayKind): string {
    match kind
    case AnnotationCreated => "ANNOTATION_CREATED"
    case AnnotationUpdated => "ANNOTATION_UPDATED"
    case AnnotationDeleted => "ANNOTATION_DELETED"
    case ModelSync => "MODEL_SYNC"
  }

  /** Whether a message is of a kind that has a shape of its own. */
  predicate HasKind(msg: Value, kind: RelayKind) {
    msg.Get(Event) == Str(EventName(kind))
  }

  lemma KindIsUnique(msg: Value, k1: RelayKind, k2: RelayKind)
    requires HasKind(msg, k1) && HasKind(msg, k2)
    ensures k1 == k2
  {
    var n1, n2 := EventName(k1), EventName(k2);
    assert |n1| == |n2|;
    if |n1| == 18 { assert n1[11] == n2[11]; }
  }

  /** The shape in which each kind of room event is shown to a browser. */
  function NormalizeRoomEvent(msg: Value): Value {
    if HasKind(msg, AnnotationCreated) then Shape(AnnotationCreated, msg)
    else if HasKind(msg, AnnotationUpdated) then Shape(AnnotationUpdated, msg)
    else if HasKind(msg, AnnotationDeleted) then Shape(AnnotationDeleted, msg)
    else if HasKind(msg, ModelSync) then Shape(ModelSync, msg)
    else msg
  }

  function Shape(kind: RelayKind, msg: Value): Value {
    match kind
    case AnnotationCreated =>
      Obj(map[Event := Str("ANNOTATION_CREATED"),
              Annotation := msg.Get(Data).Or(msg.Get(Annotation)).Or(Obj(map[]))])
    case AnnotationUpdated =>
      Obj(map[Event := Str("ANNOTATION_UPDATED"),
              AnnotationId := msg.Get(Data).Get(AnnotationId).Or(msg.Get(AnnotationId)),
              Status := msg.Get(Data).Get(Status).Or(msg.Get(Status)),
              UpdatedBy := msg.Get(UserId).Or(msg.Get(Data).Get(UpdatedBy)).Or(msg.Get(UpdatedBy))])
    case AnnotationDeleted =>
      Obj(map[Event := Str("ANNOTATION_DELETED"),
              AnnotationId := msg.Get(Data).Get(AnnotationId).Or(msg.Get(AnnotationId))])
    case ModelSync =>
      Obj(map[Event := Str("MODEL_SYNC"), Data := msg.Get(Data).Or(Obj(map[]))])
  }

  lemma NormalizedByKind(msg: Value, kind: RelayKind)
    requires HasKind(msg, kind)
    ensures NormalizeRoomEvent(msg) == Shape(kind, msg)
  {
    forall k | HasKind(msg, k) ensures k == kind { KindIsUnique(msg, k, kind); }
  }

  /** The text a browser receives for a room message, as the value it parses to. */
  function Payload(message: Value): Value {
    NormalizeRoomEvent(message).OnWire()
  }

  lemma {:induction false} OnWireIdempotent(v: Value)
    ensures v.OnWire().OnWire() == v.OnWire()
  {
    match v
    case Arr(items) =>
      forall i | 0 <= i < |items| ensures items[i].OnWire().OnWire() == items[i].OnWire() {
        OnWireIdempotent(items[i]);
      }
      assert v.OnWire().OnWire().items == v.OnWire().items;
    case Obj(fields) =>
      forall k | k in fields ensures fields[k].OnWire().OnWire() == fields[k].OnWire() {
        OnWireIdempotent(fields[k]);
      }
      assert v.OnWire().OnWire().fields == v.OnWire().fields;
    case _ =>
  }

  lemma OnWireGet(v: Value, name: Key)
    ensures v.OnWire().Get(name) == v.Get(name).OnWire()
  {
  }

  lemma OnWireTruthy(v: Value)
    ensures v.OnWire().Truthy() <==> v.Truthy() && !v.IsInfinite()
  {
  }

  /** The falsy values, as `||` and `if` see them. */
  lemma FalsyAre(v: Value)
    ensures !v.Truthy() <==> v in {Undefined, Null, Bool(false), Num(Finite(0.0)), Str("")}
  {
  }

  /** A value that JSON text can stand for: nothing in it is undefined, and every number is finite. */
  predicate IsJson(v: Value) {
    match v
    case Undefined => false
    case Num(n) => n.Finite?
    case Arr(items) => forall i | 0 <= i < |items| :: IsJson(items[i])
    case Obj(fields) => forall k | k in fields :: IsJson(fields[k])
    case _ => true
  }

  /** What comes back from JSON text is JSON, and JSON comes back as it was. */
  lemma {:induction false} OnWireIsJson(v: Value)
    requires !v.Undefined?
    ensures IsJson(v.OnWire())
    ensures v.OnWire() == v <==> IsJson(v)
  {
    match v
    case Arr(items) =>
      forall i | 0 <= i < |items| && !items[i].Undefined?
        ensures IsJson(items[i].OnWire()) && (items[i].OnWire() == items[i] <==> IsJson(items[i]))
      {
        OnWireIsJson(items[i]);
      }
      if v.OnWire() == v {
        assert forall i | 0 <= i < |items| :: v.OnWire().items[i] == items[i];
      }
      if IsJson(v) {
        forall i | 0 <= i < |items| ensures v.OnWire().items[i] == items[i] { assert IsJson(items[i]); }
        assert v.OnWire().items == items;
      }
    case Obj(fields) =>
      forall k | k in fields && !fields[k].Undefined?
        ensures IsJson(fields[k].OnWire()) && (fields[k].OnWire() == fields[k] <==> IsJson(fields[k]))
      {
        OnWireIsJson(fields[k]);
      }
      if v.OnWire() == v {
        assert v.OnWire().fields == fields;
        forall k | k in fields ensures IsJson(fields[k]) { assert k in v.OnWire().fields; }
      }
      if IsJson(v) {
        forall k | k in fields ensures k in v.OnWire().fields && v.OnWire().fields[k] == fields[k] {
          assert IsJson(fields[k]);
        }
        assert v.OnWire().fields == fields;
      }
    case _ =>
  }
}
