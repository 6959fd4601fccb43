/**
 Grouping comments for a BCF export: one batched query and a loop, against one query per annotation. What a query
 returns is any list that its WHERE and ORDER BY allow.
 */
module BcfExport {
  import opened Wrappers

  datatype Annotation = Annotation(id: nat, guid: string)

  datatype Comment = Comment(id: nat, annotation: nat, createdAt: int, body: string)

  /** The comments of one annotation, in the order of the list. */
  function Of(comments: seq<Comment>, annotation: nat): seq<Comment> {
    if comments == [] then []
    else (if comments[0].annotation == annotation then [comments[0]] else []) + Of(comments[1..], annotation)
  }

  function Among(comments: seq<Comment>, ids: set<nat>): seq<Comment> {
    if comments == [] then []
    else (if comments[0].annotation in ids then [comments[0]] else []) + Among(comments[1..], ids)
  }

  function Ids(annotations: seq<Annotation>): set<nat> {
    set i | 0 <= i < |annotations| :: annotations[i].id
  }

  /** WHERE annotation_id IN ids ORDER BY annotation_id, created_at */
  ghost predicate IsBatch(table: seq<Comment>, ids: set<nat>, rows: seq<Comment>) {
    && multiset(rows) == multiset(Among(table, ids))
    && (forall i, j | 0 <= i < j < |rows| ::
          rows[i].annotation < rows[j].annotation
          || (rows[i].annotation == rows[j].annotation && rows[i].createdAt <= rows[j].createdAt))
  }

  /** WHERE annotation_id = id ORDER BY created_at */
  ghost predicate IsSingle(table: seq<Comment>, id: nat, rows: seq<Comment>) {
    && multiset(rows) == multiset(Of(table, id))
    && (forall i, j | 0 <= i < j < |rows| :: rows[i].createdAt <= rows[j].createdAt)
  }

  /** No two comments of the annotation were made at the same time. */
  ghost predicate DistinctTimes(table: seq<Comment>, id: nat) {
    forall i, j | 0 <= i < j < |table| ::
      table[i].annotation == id && table[j].annotation == id ==> table[i].createdAt != table[j].createdAt
  }

  // ---- the loop ----

  /** The dict that the loop fills; no row can miss its key. */
  method GroupComments(ghost table: seq<Comment>, annotations: seq<Annotation>, rows: seq<Comment>)
    returns (groups: map<nat, seq<Comment>>)
    requires IsBatch(table, Ids(annotations), rows)
    ensures groups.Keys == Ids(annotations)
    ensures forall id | id in groups :: groups[id] == Of(rows, id)
  {
    hide IsBatch, Ids;
    groups := map id | id in Ids(annotations) :: [];
    for k := 0 to |rows|
      invariant groups.Keys == Ids(annotations)
      invariant forall id | id in groups :: groups[id] == Of(rows[..k], id)
    {
      hide Of;
      var comment := rows[k];
      RowHasKey(table, Ids(annotations), rows, k);
      assert rows[..k + 1] == rows[..k] + [comment];
      forall id | id in groups
        ensures Of(rows[..k + 1], id) == Of(rows[..k], id) + (if comment.annotation == id then [comment] else [])
      {
        OfAppend(rows[..k], comment, id);
      }
      groups := groups[comment.annotation := groups[comment.annotation] + [comment]];
    }
    assert rows[..|rows|] == rows;
  }

  lemma {:induction false} OfAppend(comments: seq<Comment>, c: Comment, id: nat)
    ensures Of(comments + [c], id) == Of(comments, id) + (if c.annotation == id then [c] else [])
  {
    if comments == [] {
      assert [] + [c] == [c] && [c][1..] == [];
    } else {
      OfAppend(comments[1..], c, id);
      assert (comments + [c])[1..] == comments[1..] + [c];
    }
  }

  lemma {:induction false} OfCounts(comments: seq<Comment>, id: nat, c: Comment)
    ensures multiset(Of(comments, id))[c] == if c.annotation == id then multiset(comments)[c] else 0
  {
    if comments != [] {
      OfCounts(comments[1..], id, c);
      assert comments == [comments[0]] + comments[1..];
    }
  }

  lemma {:induction false} AmongCounts(comments: seq<Comment>, ids: set<nat>, c: Comment)
    ensures multiset(Among(comments, ids))[c] == if c.annotation in ids then multiset(comments)[c] else 0
  {
    if comments != [] {
      AmongCounts(comments[1..], ids, c);
      assert comments == [comments[0]] + comments[1..];
    }
  }

  lemma RowHasKey(table: seq<Comment>, ids: set<nat>, rows: seq<Comment>, k: nat)
    requires IsBatch(table, ids, rows) && k < |rows|
    ensures rows[k].annotation in ids
  {
    AmongCounts(table, ids, rows[k]);
    assert rows[k] in multiset(rows);
  }

  // ---- the same as one query per annotation ----

  lemma {:induction false} OfIsOrdered(rows: seq<Comment>, id: nat)
    requires forall i, j | 0 <= i < j < |rows| ::
               rows[i].annotation == rows[j].annotation ==> rows[i].createdAt <= rows[j].createdAt
    ensures forall i | 0 <= i < |Of(rows, id)| :: Of(rows, id)[i] in rows && Of(rows, id)[i].annotation == id
    ensures forall i, j | 0 <= i < j < |Of(rows, id)| :: Of(rows, id)[i].createdAt <= Of(rows, id)[j].createdAt
  {
    if rows != [] {
      OfIsOrdered(rows[1..], id);
      var rest := Of(rows[1..], id);
      forall j | 0 <= j < |rest| && rows[0].annotation == id ensures rows[0].createdAt <= rest[j].createdAt {
        var k :| 0 <= k < |rows[1..]| && rows[1..][k] == rest[j];
        assert rows[k + 1] == rest[j];
      }
    }
  }

  ghost predicate Strict(a: seq<Comment>) {
    forall i, j | 0 <= i < j < |a| :: a[i].createdAt < a[j].createdAt
  }

  /** Two strictly ordered lists of the same comments are the same list. */
  lemma {:induction false} StrictUnique(a: seq<Comment>, b: seq<Comment>)
    requires multiset(a) == multiset(b) && Strict(a) && Strict(b)
    ensures a == b
  {
    assert |a| == |multiset(a)| && |b| == |multiset(b)|;
    if a != [] {
      SameFirst(a, b);
      Rest(a);
      Rest(b);
      StrictUnique(a[1..], b[1..]);
      assert a == [a[0]] + a[1..] && b == [b[0]] + b[1..];
    }
  }

  lemma Rest(a: seq<Comment>)
    requires a != []
    ensures multiset(a[1..]) == multiset(a) - multiset{a[0]}
  {
    assert a == [a[0]] + a[1..];
  }

  lemma SameFirst(a: seq<Comment>, b: seq<Comment>)
    requires a != [] && b != [] && multiset(a) == multiset(b) && Strict(a) && Strict(b)
    ensures a[0] == b[0]
  {
    assert a[0] in multiset(b) && b[0] in multiset(a);
    var i :| 0 <= i < |b| && b[i] == a[0];
    var j :| 0 <= j < |a| && a[j] == b[0];
  }

  /** Ordered, and no two entries can be at the same time. */
  lemma OrderedIsStrict(table: seq<Comment>, id: nat, a: seq<Comment>)
    requires DistinctTimes(table, id) && multiset(a) == multiset(Of(table, id))
    requires forall i, j | 0 <= i < j < |a| :: a[i].createdAt <= a[j].createdAt
    ensures Strict(a)
  {
    forall i, j | 0 <= i < j < |a| ensures a[i].createdAt < a[j].createdAt {
      if a[i].createdAt == a[j].createdAt { TwoAtOnce(table, id, a, i, j); }
    }
  }

  lemma TwoAtOnce(table: seq<Comment>, id: nat, a: seq<Comment>, i: nat, j: nat)
    requires multiset(a) == multiset(Of(table, id)) && i < j < |a| && DistinctTimes(table, id)
    ensures a[i].createdAt != a[j].createdAt
  {
    var x, y := a[i], a[j];
    OfCounts(table, id, x);
    OfCounts(table, id, y);
    assert x in multiset(a) && y in multiset(a);
    assert x in multiset(table) && y in multiset(table);
    var p :| 0 <= p < |table| && table[p] == x;
    if x == y {
      Twice(a, i, j);
      var q := OtherPlace(table, p);
    } else {
      var q :| 0 <= q < |table| && table[q] == y;
    }
  }

  lemma Twice(a: seq<Comment>, i: nat, j: nat)
    requires i < j < |a| && a[i] == a[j]
    ensures multiset(a)[a[i]] >= 2
  {
    assert a == a[..j] + [a[j]] + a[j + 1..];
    assert a[i] == a[..j][i] && a[i] in a[..j];
    assert multiset(a[..j])[a[i]] >= 1;
  }

  lemma OtherPlace(table: seq<Comment>, p: nat) returns (q: nat)
    requires p < |table| && multiset(table)[table[p]] >= 2
    ensures q < |table| && q != p && table[q] == table[p]
  {
    assert table == table[..p] + [table[p]] + table[p + 1..];
    assert multiset(table[..p])[table[p]] + multiset(table[p + 1..])[table[p]] >= 1;
    if table[p] in table[..p] {
      q :| 0 <= q < p && table[q] == table[p];
    } else {
      assert table[p] in multiset(table[p + 1..]);
      var k :| 0 <= k < |table[p + 1..]| && table[p + 1..][k] == table[p];
      q := p + 1 + k;
    }
  }

  /**
   Whatever order the database gives within what ORDER BY allows: with distinct times the group of an annotation is
   the list that a query for it alone returns.
   */
  lemma BatchedIsPerAnnotation(table: seq<Comment>, ids: set<nat>, rows: seq<Comment>, id: nat, single: seq<Comment>)
    requires DistinctTimes(table, id) && IsBatch(table, ids, rows) && id in ids && IsSingle(table, id, single)
    ensures Of(rows, id) == single
  {
    var group := Of(rows, id);
    OfIsOrdered(rows, id);
    SameGroup(table, ids, rows, id);
    OrderedIsStrict(table, id, group);
    OrderedIsStrict(table, id, single);
    StrictUnique(group, single);
  }

  // ---- and only then ----

  predicate Before(a: Comment, b: Comment) {
    a.annotation < b.annotation || (a.annotation == b.annotation && a.createdAt <= b.createdAt)
  }

  function Insert(c: Comment, sorted: seq<Comment>): seq<Comment> {
    if sorted == [] || Before(c, sorted[0]) then [c] + sorted else [sorted[0]] + Insert(c, sorted[1..])
  }

  function Sort(rows: seq<Comment>): seq<Comment> {
    if rows == [] then [] else Insert(rows[0], Sort(rows[1..]))
  }

  ghost predicate InOrder(rows: seq<Comment>) {
    forall i, j | 0 <= i < j < |rows| :: Before(rows[i], rows[j])
  }

  lemma {:induction false} InsertCounts(c: Comment, sorted: seq<Comment>)
    ensures multiset(Insert(c, sorted)) == multiset(sorted) + multiset{c}
  {
    if sorted != [] && !Before(c, sorted[0]) {
      InsertCounts(c, sorted[1..]);
      assert sorted == [sorted[0]] + sorted[1..];
    }
  }

  lemma {:induction false} InsertInOrder(c: Comment, sorted: seq<Comment>)
    requires InOrder(sorted)
    ensures InOrder(Insert(c, sorted))
  {
    if sorted != [] && !Before(c, sorted[0]) {
      var rest := Insert(c, sorted[1..]);
      InsertInOrder(c, sorted[1..]);
      InsertCounts(c, sorted[1..]);
      forall j | 0 <= j < |rest| ensures Before(sorted[0], rest[j]) {
        assert rest[j] in multiset(rest);
      }
    }
  }

  lemma {:induction false} SortInOrder(rows: seq<Comment>)
    ensures InOrder(Sort(rows)) && multiset(Sort(rows)) == multiset(rows)
  {
    if rows != [] {
      SortInOrder(rows[1..]);
      InsertInOrder(rows[0], Sort(rows[1..]));
      InsertCounts(rows[0], Sort(rows[1..]));
      assert rows == [rows[0]] + rows[1..];
    }
  }

  lemma SwapTied(a: seq<Comment>, i: nat, j: nat)
    requires i < j < |a| && a[i].createdAt == a[j].createdAt
    requires forall m, n | 0 <= m < n < |a| :: a[m].createdAt <= a[n].createdAt
    ensures var b := a[i := a[j]][j := a[i]];
            && multiset(b) == multiset(a)
            && forall m, n | 0 <= m < n < |b| :: b[m].createdAt <= b[n].createdAt
  {
    var b := a[i := a[j]][j := a[i]];
    assert forall m | 0 <= m < |a| :: b[m].createdAt == a[m].createdAt;
  }

  lemma Swapped(a: seq<Comment>, x: Comment, y: Comment) returns (b: seq<Comment>)
    requires x in a && y in a && x != y && x.createdAt == y.createdAt
    requires forall m, n | 0 <= m < n < |a| :: a[m].createdAt <= a[n].createdAt
    ensures multiset(b) == multiset(a) && b != a
    ensures forall m, n | 0 <= m < n < |b| :: b[m].createdAt <= b[n].createdAt
  {
    var i :| 0 <= i < |a| && a[i] == x;
    var j :| 0 <= j < |a| && a[j] == y;
    var m, n := if i < j then i else j, if i < j then j else i;
    SwapTied(a, m, n);
    b := a[m := a[n]][n := a[m]];
    assert b[m] != a[m];
  }

  /** A table with two comments of the annotation at one time: an allowed batch and an allowed list that differ. */
  lemma TieDisagrees(table: seq<Comment>, ids: set<nat>, id: nat, p: nat, q: nat)
    returns (rows: seq<Comment>, single: seq<Comment>)
    requires id in ids && p < |table| && q < |table| && table[p] != table[q]
    requires table[p].annotation == id == table[q].annotation && table[p].createdAt == table[q].createdAt
    ensures IsBatch(table, ids, rows) && IsSingle(table, id, single) && Of(rows, id) != single
  {
    hide Of, Among, Sort;
    rows := Sort(Among(table, ids));
    SortInOrder(Among(table, ids));
    OfIsOrdered(rows, id);
    SameGroup(table, ids, rows, id);
    InGroup(table, id, Of(rows, id), p);
    InGroup(table, id, Of(rows, id), q);
    single := Swapped(Of(rows, id), table[p], table[q]);
  }

  lemma SameGroup(table: seq<Comment>, ids: set<nat>, rows: seq<Comment>, id: nat)
    requires multiset(rows) == multiset(Among(table, ids)) && id in ids
    ensures multiset(Of(rows, id)) == multiset(Of(table, id))
  {
    forall c: Comment ensures multiset(Of(rows, id))[c] == multiset(Of(table, id))[c] {
      OfCounts(rows, id, c);
      OfCounts(table, id, c);
      AmongCounts(table, ids, c);
    }
  }

  lemma InGroup(table: seq<Comment>, id: nat, group: seq<Comment>, p: nat)
    requires multiset(group) == multiset(Of(table, id)) && p < |table| && table[p].annotation == id
    ensures table[p] in group
  {
    OfCounts(table, id, table[p]);
    assert table[p] in multiset(table);
    assert table[p] in multiset(group);
  }

  /**
   Whatever the database may return, the batched group of an annotation is the list of a query for it alone, if and
   only if no two of its comments were made at the same time. Rows differ, as they have a primary key.
   */
  lemma AgreeExactly(table: seq<Comment>, ids: set<nat>, id: nat)
    requires id in ids && forall i, j | 0 <= i < j < |table| :: table[i] != table[j]
    ensures (forall rows, single | IsBatch(table, ids, rows) && IsSingle(table, id, single) :: Of(rows, id) == single)
            <==> DistinctTimes(table, id)
  {
    hide IsBatch, IsSingle;
    if DistinctTimes(table, id) {
      forall rows, single | IsBatch(table, ids, rows) && IsSingle(table, id, single) ensures Of(rows, id) == single {
        BatchedIsPerAnnotation(table, ids, rows, id, single);
      }
    } else {
      var p, q :| 0 <= p < q < |table| && table[p].annotation == id && table[q].annotation == id
        && table[p].createdAt == table[q].createdAt;
      var rows, single := TieDisagrees(table, ids, id, p, q);
    }
  }

  // ---- the archive ----

  datatype Topic = Topic(entry: string, comments: seq<Comment>)

  function Topics(annotations: seq<Annotation>, rows: seq<Comment>): seq<Topic> {
    if annotations == [] then []
    else [Topic(annotations[0].guid + "/markup.bcf", Of(rows, annotations[0].id))] + Topics(annotations[1..], rows)
  }

  function AllComments(topics: seq<Topic>): seq<Comment> {
    if topics == [] then [] else topics[0].comments + AllComments(topics[1..])
  }

  lemma {:induction false} TopicsCount(annotations: seq<Annotation>, rows: seq<Comment>, c: Comment)
    requires forall i, j | 0 <= i < j < |annotations| :: annotations[i].id != annotations[j].id
    ensures multiset(AllComments(Topics(annotations, rows)))[c]
         == if c.annotation in Ids(annotations) then multiset(rows)[c] else 0
  {
    if annotations != [] {
      var first, rest := annotations[0], annotations[1..];
      TopicsCount(rest, rows, c);
      OfCounts(rows, first.id, c);
      assert Topics(annotations, rows)[1..] == Topics(rest, rows);
      IdsOfRest(annotations);
    }
  }

  lemma IdsOfRest(annotations: seq<Annotation>)
    requires annotations != []
    requires forall i, j | 0 <= i < j < |annotations| :: annotations[i].id != annotations[j].id
    ensures Ids(annotations) == {annotations[0].id} + Ids(annotations[1..])
    ensures annotations[0].id !in Ids(annotations[1..])
  {
    var rest := annotations[1..];
    assert forall i | 0 <= i < |rest| :: rest[i] == annotations[i + 1];
    forall x | x in Ids(annotations) ensures x in {annotations[0].id} + Ids(rest) {
      var i :| 0 <= i < |annotations| && annotations[i].id == x;
      if i > 0 { assert rest[i - 1].id == x; }
    }
  }

  /** The topics together hold every comment of the model's annotations, each exactly once, and nothing else. */
  lemma NothingLostOrDoubled(table: seq<Comment>, annotations: seq<Annotation>, rows: seq<Comment>)
    requires forall i, j | 0 <= i < j < |annotations| :: annotations[i].id != annotations[j].id
    requires IsBatch(table, Ids(annotations), rows)
    ensures multiset(AllComments(Topics(annotations, rows))) == multiset(Among(table, Ids(annotations)))
  {
    var all := AllComments(Topics(annotations, rows));
    forall c: Comment ensures multiset(all)[c] == multiset(Among(table, Ids(annotations)))[c] {
      TopicsCount(annotations, rows, c);
      AmongCounts(table, Ids(annotations), c);
      assert multiset(rows)[c] == multiset(Among(table, Ids(annotations)))[c];
    }
  }

  lemma {:induction false} TopicAt(annotations: seq<Annotation>, rows: seq<Comment>, i: nat)
    requires i < |annotations|
    ensures |Topics(annotations, rows)| == |annotations|
    ensures Topics(annotations, rows)[i] == Topic(annotations[i].guid + "/markup.bcf", Of(rows, annotations[i].id))
  {
    if i > 0 {
      TopicAt(annotations[1..], rows, i - 1);
    } else if |annotations| > 1 {
      TopicAt(annotations[1..], rows, 0);
    }
  }

  /** The file of an annotation's topic is named after its GUID and holds exactly its own comments, oldest first. */
  lemma TopicHolds(table: seq<Comment>, annotations: seq<Annotation>, rows: seq<Comment>, i: nat, c: Comment)
    requires IsBatch(table, Ids(annotations), rows) && i < |annotations|
    ensures |Topics(annotations, rows)| == |annotations|
    ensures var topic := Topics(annotations, rows)[i];
            && topic.entry == annotations[i].guid + "/markup.bcf"
            && multiset(topic.comments)[c] == (if c.annotation == annotations[i].id then multiset(table)[c] else 0)
            && forall a, b | 0 <= a < b < |topic.comments| :: topic.comments[a].createdAt <= topic.comments[b].createdAt
  {
    TopicAt(annotations, rows, i);
    OfIsOrdered(rows, annotations[i].id);
    OfCounts(rows, annotations[i].id, c);
    AmongCounts(table, Ids(annotations), c);
    assert annotations[i].id in Ids(annotations);
    assert multiset(rows)[c] == multiset(Among(table, Ids(annotations)))[c];
    hide Topics, Of, Among;
  }

  /** With unique GUIDs no topic overwrites another in the archive. */
  lemma EntriesApart(annotations: seq<Annotation>, rows: seq<Comment>, i: nat, j: nat)
    requires forall a, b | 0 <= a < b < |annotations| :: annotations[a].guid != annotations[b].guid
    requires i < j < |annotations|
    ensures |Topics(annotations, rows)| == |annotations|
    ensures Topics(annotations, rows)[i].entry != Topics(annotations, rows)[j].entry
  {
    TopicAt(annotations, rows, i);
    TopicAt(annotations, rows, j);
    var x, y := annotations[i].guid + "/markup.bcf", annotations[j].guid + "/markup.bcf";
    assert x[..|x| - 11] == annotations[i].guid && y[..|y| - 11] == annotations[j].guid;
  }

  /** The export: a topic per annotation, with the comments that the loop grouped under it. */
  method ExportBcf(ghost table: seq<Comment>, annotations: seq<Annotation>, rows: seq<Comment>)
    returns (archive: seq<Topic>)
    requires IsBatch(table, Ids(annotations), rows)
    ensures archive == Topics(annotations, rows)
  {
    var groups := GroupComments(table, annotations, rows);
    archive := [];
    assert annotations[0..] == annotations;
    for i := 0 to |annotations|
      invariant archive + Topics(annotations[i..], rows) == Topics(annotations, rows)
    {
      hide Of;
      var annotation := annotations[i];
      assert annotation.id in Ids(annotations);
      assert annotations[i..][1..] == annotations[i + 1..];
      archive := archive + [Topic(annotation.guid + "/markup.bcf", groups[annotation.id])];
    }
  }
}
