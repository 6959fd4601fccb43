/**
 The pagination cursor, base64url of "<created_at>|<uuid>", and the listing endpoints as a client sees them:
 each response carries the text to send back for the next page.
 */
module Cursor {
  import opened Wrappers
  import B = Base64
  import Bytes
  import P = Pagination
  import Uuid

  /**
   What the codec takes from Python: `datetime.isoformat` and its inverse, and the UTF-8 decoder.
   Timestamps are numbers of microseconds from the start of year 1 to the end of year 9999.
   */
  datatype Platform = Platform(isoformat: int -> string, fromisoformat: string -> Option<int>,
                               utf8: Bytes.File -> Option<string>) {
    ghost predicate Lawful() {
      && (forall t | IsTime(t) :: fromisoformat(isoformat(t)) == Some(t) && '|' !in isoformat(t) && Ascii(isoformat(t)))
      && (forall s | Ascii(s) :: utf8(Utf8(s)) == Some(s))
    }
  }

  predicate IsTime(t: int) {
    0 <= t < 315_537_897_600_000_000
  }

  predicate Ascii(s: string) {
    forall i | 0 <= i < |s| :: s[i] < 128 as char
  }

  function Utf8(s: string): (b: Bytes.File)
    requires Ascii(s)
    ensures |b| == |s| && forall i | 0 <= i < |s| :: b[i] == s[i] as int
  {
    seq(|s|, i requires 0 <= i < |s| => s[i] as int)
  }

  datatype ApiError = InvalidCursor

  /** Keys as the database holds them: a timestamp that Python can express and a UUID. */
  predicate IsKey(k: P.Key) {
    IsTime(k.createdAt) && k.id < 0x1_0000_0000_0000_0000_0000_0000_0000_0000
  }

  function Raw(p: Platform, k: P.Key): string
    requires IsKey(k)
  {
    p.isoformat(k.createdAt) + "|" + Uuid.Print(k.id)
  }

  function Encode(p: Platform, k: P.Key): string
    requires IsKey(k) && Ascii(Raw(p, k))
  {
    B.Encode(Utf8(Raw(p, k)))
  }

  /** `s.split('|', 1)`, None when it does not give two parts. */
  function SplitOnce(s: string): Option<(string, string)> {
    if s == "" then None
    else if s[0] == '|' then Some(("", s[1..]))
    else match SplitOnce(s[1..])
      case None => None
      case Some(parts) => Some(([s[0]] + parts.0, parts.1))
  }

  function DecodeRaw(p: Platform, raw: string): Result<P.Key, ApiError> {
    match SplitOnce(raw)
    case None => Err(InvalidCursor)
    case Some(parts) =>
      match (p.fromisoformat(parts.0), Uuid.Parse(parts.1))
      case (Some(t), Some(id)) => Ok(P.Key(t, id))
      case _ => Err(InvalidCursor)
  }

  function Decode(p: Platform, cursor: string): Result<P.Key, ApiError> {
    match B.Decode(cursor)
    case None => Err(InvalidCursor)
    case Some(b) =>
      match p.utf8(b)
      case None => Err(InvalidCursor)
      case Some(raw) => DecodeRaw(p, raw)
  }

  lemma {:induction false} SplitsAt(s: string)
    ensures SplitOnce(s).None? <==> '|' !in s
    ensures SplitOnce(s).Some? ==> var (a, b) := SplitOnce(s).value; '|' !in a && s == a + "|" + b
  {
    if s != "" && s[0] != '|' { SplitsAt(s[1..]); }
  }

  /**
   A text is accepted as a cursor if and only if it is Base64 of text in which what stands before the first '|' is a
   timestamp and what stands behind it is a UUID; these two are then the key.
   */
  lemma DecodedExactly(p: Platform, cursor: string, k: P.Key)
    ensures Decode(p, cursor) == Ok(k) <==>
              && B.Decode(cursor).Some? && p.utf8(B.Decode(cursor).value).Some?
              && exists a, b ::
                   && p.utf8(B.Decode(cursor).value).value == a + "|" + b && '|' !in a
                   && p.fromisoformat(a) == Some(k.createdAt) && Uuid.Parse(b) == Some(k.id)
  {
    hide B.Decode, Uuid.Parse, SplitOnce;
    if B.Decode(cursor).Some? && p.utf8(B.Decode(cursor).value).Some? {
      var raw := p.utf8(B.Decode(cursor).value).value;
      SplitsAt(raw);
      forall a, b | raw == a + "|" + b && '|' !in a ensures SplitOnce(raw) == Some((a, b)) {
        assert raw[|a|] == '|' && raw[|a|] in raw;
        SplitAtBar(a, b);
      }
    }
  }

  // ---- the round trip ----

  lemma {:induction false} SplitAtBar(a: string, b: string)
    requires '|' !in a
    ensures SplitOnce(a + "|" + b) == Some((a, b))
  {
    var s := a + "|" + b;
    if a == "" {
      assert s[1..] == b;
    } else {
      SplitAtBar(a[1..], b);
      assert a[0] in a && s[0] == a[0] && s[1..] == a[1..] + "|" + b;
      assert [a[0]] + a[1..] == a;
    }
  }

  lemma RawIsAscii(p: Platform, k: P.Key)
    requires p.Lawful() && IsKey(k)
    ensures Ascii(Raw(p, k))
  {
    Uuid.PrintedForm(k.id);
    hide Uuid.Print;
    var t, u := p.isoformat(k.createdAt), Uuid.Print(k.id);
    assert Ascii(t) && Ascii(u);
    forall i | 0 <= i < |t + "|" + u| ensures (t + "|" + u)[i] < 128 as char {
      assert (t + "|" + u)[i] == if i < |t| then t[i] else if i == |t| then '|' else u[i - |t| - 1];
    }
  }

  /** Decoding an encoded cursor gives back its timestamp and id, for every pair. */
  lemma DecodeEncoded(p: Platform, k: P.Key)
    requires p.Lawful() && IsKey(k)
    ensures Ascii(Raw(p, k)) && Decode(p, Encode(p, k)) == Ok(k)
    ensures Encode(p, k) != ""
  {
    RawIsAscii(p, k);
    hide Ascii, Uuid.Print, Uuid.Parse, B.Encode, B.Decode;
    B.DecodeEncoded(Utf8(Raw(p, k)));
    SplitAtBar(p.isoformat(k.createdAt), Uuid.Print(k.id));
    Uuid.ParsePrinted(k.id);
    B.EncodedForm(Utf8(Raw(p, k)));
  }

  /** Distinct pairs have distinct cursors. */
  lemma Injective(p: Platform, a: P.Key, b: P.Key)
    requires p.Lawful() && IsKey(a) && IsKey(b)
    ensures Ascii(Raw(p, a)) && Ascii(Raw(p, b))
    ensures Encode(p, a) == Encode(p, b) ==> a == b
  {
    DecodeEncoded(p, a);
    DecodeEncoded(p, b);
    hide Encode, Decode, Raw;
  }

  // ---- listings whose cursors are text ----

  datatype Response = Response(rows: seq<P.Row>, next: Option<string>)

  /** `if cursor:`, so the empty text asks for the first page like no text at all. */
  function Sent(p: Platform, cursor: Option<string>): Result<Option<P.Key>, ApiError> {
    if cursor.None? || cursor.value == "" then Ok(None)
    else match Decode(p, cursor.value)
      case Ok(k) => Ok(Some(k))
      case Err(e) => Err(e)
  }

  function List(p: Platform, table: seq<P.Row>, keep: P.Row -> bool, cursor: Option<string>, limit: nat)
    : Result<Response, ApiError>
  {
    match Sent(p, cursor)
    case Err(e) => Err(e)
    case Ok(below) =>
      var page := P.ListPage(table, keep, below, limit);
      Ok(Response(page.rows, NextText(p, page.next)))
  }

  /** A request is refused exactly for a cursor that is not empty and does not decode; an empty one starts anew. */
  lemma RefusedExactly(p: Platform, table: seq<P.Row>, keep: P.Row -> bool, cursor: Option<string>, limit: nat)
    ensures List(p, table, keep, cursor, limit).Err? <==>
              cursor.Some? && cursor.value != "" && Decode(p, cursor.value).Err?
    ensures List(p, table, keep, Some(""), limit) == List(p, table, keep, None, limit)
    ensures List(p, table, keep, None, limit).Ok?
  {
    hide Decode;
  }

  function NextText(p: Platform, next: Option<P.Key>): Option<string> {
    if next.Some? && IsKey(next.value) && Ascii(Raw(p, next.value)) then Some(Encode(p, next.value)) else None
  }

  ghost predicate AllKeys(table: seq<P.Row>) {
    forall i | 0 <= i < |table| :: IsKey(table[i].key)
  }

  function CursorAt(responses: seq<Response>, i: nat): Option<string>
    requires i <= |responses|
  {
    if i == 0 then None else responses[i - 1].next
  }

  /** A client that sends back each next_cursor as it came. */
  ghost predicate IsWalk(p: Platform, tables: seq<seq<P.Row>>, keep: P.Row -> bool, limit: nat,
                         responses: seq<Response>)
  {
    && |tables| == |responses|
    && (forall i | 0 <= i < |tables| :: P.UniqueKeys(tables[i]) && AllKeys(tables[i]))
    && (forall i | 0 <= i < |responses| ::
          List(p, tables[i], keep, CursorAt(responses, i), limit) == Ok(responses[i]))
    && (forall i | 0 <= i < |responses| - 1 :: responses[i].next.Some?)
  }

  function KeyPage(p: Platform, r: Response): P.Page {
    P.Page(r.rows, if r.next.None? then None
                   else match Decode(p, r.next.value) case Ok(k) => Some(k) case Err(_) => None)
  }

  function KeyPages(p: Platform, responses: seq<Response>): (pages: seq<P.Page>)
    ensures |pages| == |responses| && forall i | 0 <= i < |pages| :: pages[i] == KeyPage(p, responses[i])
  {
    seq(|responses|, i requires 0 <= i < |responses| => KeyPage(p, responses[i]))
  }

  /** The cursor of a page is the key of a row of the table. */
  lemma NextIsKey(table: seq<P.Row>, keep: P.Row -> bool, cursor: Option<P.Key>, limit: nat)
    requires P.UniqueKeys(table) && AllKeys(table) && limit >= 1
    ensures var page := P.ListPage(table, keep, cursor, limit); page.next.Some? ==> IsKey(page.next.value)
  {
    var page := P.ListPage(table, keep, cursor, limit);
    P.PageCuts(table, keep, cursor, limit);
    P.QueryRows(table, keep, cursor);
    hide P.Sorted, P.Matching, P.ListPage, IsKey;
    var q := P.Sorted(P.Matching(table, keep, cursor));
    if page.next.Some? { assert q[limit - 1] in q; }
  }

  /** What comes back is the page of the decoded cursor, with its own cursor in text. */
  lemma ListedPage(p: Platform, table: seq<P.Row>, keep: P.Row -> bool, cursor: Option<string>, limit: nat, r: Response)
    requires p.Lawful() && P.UniqueKeys(table) && AllKeys(table) && limit >= 1
    requires List(p, table, keep, cursor, limit) == Ok(r)
    ensures Sent(p, cursor).Ok?
    ensures KeyPage(p, r) == P.ListPage(table, keep, Sent(p, cursor).value, limit)
    ensures r.next.Some? <==> KeyPage(p, r).next.Some?
    ensures Sent(p, r.next) == Ok(KeyPage(p, r).next)
  {
    var below := Sent(p, cursor).value;
    NextIsKey(table, keep, below, limit);
    var page := P.ListPage(table, keep, below, limit);
    hide P.ListPage, Encode, Decode, Raw, Platform.Lawful;
    if page.next.Some? { DecodeEncoded(p, page.next.value); }
  }

  /**
   A walk by text cursors is a walk by keys, so it returns no row twice and misses none, and no cursor that was
   handed out is ever refused.
   */
  lemma {:induction false} TextWalk(p: Platform, tables: seq<seq<P.Row>>, keep: P.Row -> bool, limit: nat,
                                    responses: seq<Response>)
    requires p.Lawful() && limit >= 1 && IsWalk(p, tables, keep, limit, responses)
    ensures P.IsWalk(tables, keep, limit, KeyPages(p, responses))
    ensures forall i | 0 <= i < |responses| ::
              && KeyPages(p, responses)[i].rows == responses[i].rows
              && (KeyPages(p, responses)[i].next.Some? <==> responses[i].next.Some?)
    ensures responses != [] ==> Sent(p, responses[|responses| - 1].next).Ok?
  {
    var pages := KeyPages(p, responses);
    hide List, KeyPage, Sent, Platform.Lawful, P.UniqueKeys, AllKeys, P.ListPage, KeyPages;
    forall i | 0 <= i < |responses|
      ensures pages[i] == P.ListPage(tables[i], keep, P.CursorAt(pages, i), limit)
      ensures pages[i].next.Some? <==> responses[i].next.Some?
      ensures pages[i].rows == responses[i].rows
      ensures Sent(p, responses[i].next).Ok?
    {
      WalkStep(p, tables, keep, limit, responses, i);
    }
  }

  lemma WalkStep(p: Platform, tables: seq<seq<P.Row>>, keep: P.Row -> bool, limit: nat,
                 responses: seq<Response>, i: nat)
    requires p.Lawful() && limit >= 1 && IsWalk(p, tables, keep, limit, responses) && i < |responses|
    ensures KeyPage(p, responses[i])
         == P.ListPage(tables[i], keep, P.CursorAt(KeyPages(p, responses), i), limit)
    ensures KeyPage(p, responses[i]).next.Some? <==> responses[i].next.Some?
    ensures KeyPage(p, responses[i]).rows == responses[i].rows
    ensures Sent(p, responses[i].next).Ok?
  {
    assert KeyPage(p, responses[i]).rows == responses[i].rows;
    hide List, KeyPage, Platform.Lawful, P.UniqueKeys, AllKeys, P.ListPage;
    ListedPage(p, tables[i], keep, CursorAt(responses, i), limit, responses[i]);
    if i > 0 {
      ListedPage(p, tables[i - 1], keep, CursorAt(responses, i - 1), limit, responses[i - 1]);
    }
  }

  /** On a table that does not change, the responses up to the null cursor concatenate to the full query. */
  lemma TextWalkIsFullQuery(p: Platform, table: seq<P.Row>, tables: seq<seq<P.Row>>, keep: P.Row -> bool, limit: nat,
                            responses: seq<Response>)
    requires p.Lawful() && limit >= 1 && IsWalk(p, tables, keep, limit, responses)
    requires forall i | 0 <= i < |tables| :: tables[i] == table
    requires responses != [] && responses[|responses| - 1].next.None?
    ensures Concat(responses) == P.FullQuery(table, keep)
    ensures P.PageCount(|P.FullQuery(table, keep)|, limit, |responses|)
  {
    var pages := KeyPages(p, responses);
    assert P.UniqueKeys(tables[0]);
    hide Platform.Lawful, P.UniqueKeys, P.ListPage, P.FullQuery, P.PageCount;
    TextWalk(p, tables, keep, limit, responses);
    P.FixedWalk(tables, table, keep, limit, pages, 0);
    P.WalkIsFullQuery(table, keep, limit);
    SameRows(responses, pages);
  }

  function Concat(responses: seq<Response>): seq<P.Row> {
    if responses == [] then [] else responses[0].rows + Concat(responses[1..])
  }

  lemma {:induction false} SameRows(responses: seq<Response>, pages: seq<P.Page>)
    requires |responses| == |pages| && forall i | 0 <= i < |pages| :: pages[i].rows == responses[i].rows
    ensures Concat(responses) == P.Rows(pages)
  {
    if pages != [] { SameRows(responses[1..], pages[1..]); }
  }
}
