/**
 * The Cosmos DB container that holds content records. Records are keyed by
 * their `id`; the partition key is `media_type`, so reads and deletes by
 * partition must name the record's own media type. `order` is the order in
 * which a query scans the container.
 */
module Store {
  import opened Wrappers
  import opened Docs
  import opened Ordering

  /** The `id` a record is stored under, when it is a string. */
  function IdOf(d: Doc): Option<string>
  {
    if "id" in d && d["id"].Str? then Some(d["id"].s) else None
  }

  /** The sort key of `ORDER BY c.created_at`. */
  function CreatedAt(d: Doc): string
  {
    AsText(Lookup(d, "created_at"))
  }

  /** `ids` with every occurrence of `x` removed. */
  function Without(ids: seq<string>, x: string): (r: seq<string>)
    ensures forall y :: y in r <==> y in ids && y != x
    ensures Distinct(ids) ==> Distinct(r)
  {
    if ids == [] then []
    else if ids[0] == x then Without(ids[1..], x)
    else
      assert Distinct(ids) ==> ids[0] !in ids[1..];
      [ids[0]] + Without(ids[1..], x)
  }

  predicate Distinct(ids: seq<string>)
  {
    forall i, j :: 0 <= i < j < |ids| ==> ids[i] != ids[j]
  }

  /** The records of `ids`, in that order, that satisfy `p`. */
  function Select(ids: seq<string>, m: map<string, Doc>, p: Doc -> bool): (r: seq<Doc>)
    requires forall i :: 0 <= i < |ids| ==> ids[i] in m
    ensures |r| <= |ids|
    ensures forall d :: d in r ==> p(d) && exists i :: 0 <= i < |ids| && m[ids[i]] == d
  {
    if ids == [] then []
    else
      var rest := Select(ids[..|ids| - 1], m, p);
      var d := m[ids[|ids| - 1]];
      if p(d) then rest + [d] else rest
  }

  lemma {:induction false} SelectComplete(ids: seq<string>, m: map<string, Doc>, p: Doc -> bool, k: int)
    requires forall i :: 0 <= i < |ids| ==> ids[i] in m
    requires 0 <= k < |ids| && p(m[ids[k]])
    ensures m[ids[k]] in Select(ids, m, p)
  {
    if k < |ids| - 1 {
      SelectComplete(ids[..|ids| - 1], m, p, k);
    }
  }

  /** The records after `update_content(id, updates)`: an unknown id changes nothing. */
  function Updated(items: map<string, Doc>, id: string, updates: Doc): map<string, Doc>
  {
    if id in items then items[id := Merge(items[id], updates)] else items
  }

  /** Deleting a key that was just added gives back the map from before. */
  lemma AddThenDelete<V>(m: map<string, V>, k: string, v: V)
    requires k !in m
    ensures m[k := v] - {k} == m
  {
  }

  class Container {
    var items: map<string, Doc>
    var order: seq<string>

    ghost predicate Valid()
      reads this
    {
      Distinct(order)
      && (forall i :: 0 <= i < |order| ==> order[i] in items)
      && (forall k :: k in items ==> k in order)
      && (forall k :: k in items ==> IdOf(items[k]) == Some(k))
    }

    constructor ()
      ensures Valid() && items == map[] && order == []
    {
      items := map[];
      order := [];
    }

    /** The cross-partition `SELECT * FROM c WHERE c.id = @id` lookup. */
    function Find(id: string): (r: Option<Doc>)
      reads this
      ensures r.Some? <==> id in items
      ensures r.Some? ==> r.value == items[id]
    {
      if id in items then Some(items[id]) else None
    }

    /** `read_item(item=id, partition_key=media_type)`: only the record's own partition finds it. */
    function ReadItem(id: string, mediaType: string): (r: Option<Doc>)
      reads this
      ensures r.Some? <==> id in items && Lookup(items[id], "media_type") == Str(mediaType)
      ensures r.Some? ==> r.value == items[id]
    {
      if id in items && Lookup(items[id], "media_type") == Str(mediaType) then Some(items[id]) else None
    }

    /** `create_item(body=doc)`: fails on a missing id or an id already taken. */
    method CreateItem(doc: Doc) returns (r: Result<Doc>)
      requires Valid()
      modifies this
      ensures Valid()
      ensures match IdOf(doc)
        case Some(id) =>
          if id in old(items) then r.Err? && items == old(items) && order == old(order)
          else r == Ok(doc) && items == old(items)[id := doc] && order == old(order) + [id]
        case None => r.Err? && items == old(items) && order == old(order)
    {
      match IdOf(doc)
      case None =>
        r := Err("document has no string id");
      case Some(id) =>
        if id in items {
          r := Err("conflict: id already exists");
        } else {
          items := items[id := doc];
          order := order + [id];
          r := Ok(doc);
        }
    }

    /** `replace_item(item=id, body=doc)`: the stored record becomes `doc`. */
    method ReplaceItem(id: string, doc: Doc) returns (r: Result<Doc>)
      requires Valid()
      modifies this`items
      ensures Valid()
      ensures if id in old(items) && IdOf(doc) == Some(id)
        then r == Ok(doc) && items == old(items)[id := doc]
        else r.Err? && items == old(items)
    {
      if id in items && IdOf(doc) == Some(id) {
        items := items[id := doc];
        r := Ok(doc);
      } else {
        r := Err("replace failed");
      }
    }

    /** `delete_item(item=id, partition_key=media_type)`: raises unless the record is in that partition. */
    method DeleteItem(id: string, mediaType: string) returns (ok: bool)
      requires Valid()
      modifies this
      ensures Valid()
      ensures ok <==> old(ReadItem(id, mediaType)).Some?
      ensures ok ==> items == old(items) - {id} && order == Without(old(order), id)
      ensures !ok ==> items == old(items) && order == old(order)
    {
      ok := id in items && Lookup(items[id], "media_type") == Str(mediaType);
      if ok {
        ghost var was := order;
        items := items - {id};
        order := Without(order, id);
        forall i | 0 <= i < |order|
          ensures order[i] in items
        {
          assert order[i] in was;
        }
      }
    }

    /** The records, in scan order, that satisfy `p`. */
    function Where(p: Doc -> bool): (r: seq<Doc>)
      reads this
      requires Valid()
    {
      Select(order, items, p)
    }

    /**
     * `SELECT * FROM c WHERE <p> ORDER BY <key> [DESC] OFFSET 0 LIMIT @limit`,
     * collected by the caller's `async for ... items.append(item)` loop.
     */
    method QueryBy(p: Doc -> bool, key: Doc -> string, desc: bool, limit: int) returns (rows: seq<Doc>)
      requires Valid()
      ensures rows == Take(SortBy(Where(p), key, desc), limit)
    {
      var matched: seq<Doc> := [];
      var i := 0;
      while i < |order|
        invariant 0 <= i <= |order|
        invariant matched == Select(order[..i], items, p)
      {
        assert order[..i + 1][..i] == order[..i];
        assert order[..i + 1][i] == order[i];
        var d := items[order[i]];
        if p(d) {
          matched := matched + [d];
        }
        i := i + 1;
      }
      assert order[..|order|] == order;
      rows := Take(SortBy(matched, key, desc), limit);
    }
  }

  /**
   * What a query promises: only matching records, each stored in the
   * container, in `key` order, at most `limit` of them, and all of the
   * matching records when they fit under the limit.
   */
  lemma {:induction false} QueryBySpec(c: Container, p: Doc -> bool, key: Doc -> string, desc: bool, limit: int, rows: seq<Doc>)
    requires c.Valid()
    requires rows == Take(SortBy(c.Where(p), key, desc), limit)
    ensures forall d :: d in rows ==> p(d) && d in c.items.Values
    ensures SortedBy(rows, key, desc)
    ensures limit >= 0 ==> |rows| <= limit
    ensures |c.Where(p)| <= limit ==> forall k :: k in c.items && p(c.items[k]) ==> c.items[k] in rows
  {
    var all := c.Where(p);
    var ranked := SortBy(all, key, desc);
    SortByPermutes(all, key, desc);
    SortBySorted(all, key, desc);
    forall d | d in rows
      ensures p(d) && d in c.items.Values
    {
      assert d in multiset(ranked);
      assert d in all;
      var i :| 0 <= i < |c.order| && c.items[c.order[i]] == d;
    }
    forall k | k in c.items && p(c.items[k])
      ensures |all| <= limit ==> c.items[k] in rows
    {
      var i :| 0 <= i < |c.order| && c.order[i] == k;
      SelectComplete(c.order, c.items, p, i);
      assert c.items[k] in multiset(ranked);
    }
  }
}
