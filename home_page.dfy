/** The admin list page: the item count and the list filter applied
    after a delete. */
module HomePage {
  import opened Values
  import ContentRoute
  import View

  /** The number of records whose `_id` is `id`. */
  function CountMatching(items: seq<Row>, id: Val): nat {
    if items == [] then 0
    else (if Field(items[0], "_id") == id then 1 else 0) + CountMatching(items[1..], id)
  }

  /** `contents.filter(c => c._id !== id)`. */
  function RemoveById(items: seq<Row>, id: Val): (kept: seq<Row>)
    ensures forall k :: 0 <= k < |kept| ==> Field(kept[k], "_id") != id
    ensures |kept| == |items| - CountMatching(items, id)
  {
    if items == [] then []
    else
      var rest := RemoveById(items[1..], id);
      if Field(items[0], "_id") != id then [items[0]] + rest else rest
  }

  /** Exactly the records whose `_id` differs are kept. */
  lemma {:induction false} RemoveByIdKeepsOthers(items: seq<Row>, id: Val)
    ensures forall c :: c in RemoveById(items, id) <==> c in items && Field(c, "_id") != id
  {
    if items != [] {
      RemoveByIdKeepsOthers(items[1..], id);
      assert forall c :: c in items <==> c == items[0] || c in items[1..];
    }
  }

  /** When every record carries the id, nothing is kept. */
  lemma {:induction false} RemoveByIdAllMatching(items: seq<Row>, id: Val)
    requires forall k :: 0 <= k < |items| ==> Field(items[k], "_id") == id
    ensures RemoveById(items, id) == []
  {
    if items != [] {
      RemoveByIdAllMatching(items[1..], id);
    }
  }

  /** Filtering works piecewise, so the kept records keep their relative order. */
  lemma {:induction false} RemoveByIdAppend(a: seq<Row>, b: seq<Row>, id: Val)
    ensures RemoveById(a + b, id) == RemoveById(a, id) + RemoveById(b, id)
  {
    if a == [] {
      assert a + b == b;
    } else {
      assert (a + b)[0] == a[0];
      assert (a + b)[1..] == a[1..] + b;
      RemoveByIdAppend(a[1..], b, id);
      var head := if Field(a[0], "_id") != id then [a[0]] else [];
      assert RemoveById(a + b, id) == head + RemoveById(a[1..] + b, id);
      assert RemoveById(a, id) == head + RemoveById(a[1..], id);
    }
  }

  /** What the awaited DELETE request ends with: any HTTP answer, or a
      network failure that rejects the awaited promise. */
  datatype DeleteReply = Replied(status: int) | NetworkError

  class AdminHome {
    var contents: seq<Row>

    /** The list after the initial fetch. */
    constructor (fetched: seq<Row>)
      ensures contents == fetched
    {
      contents := fetched;
    }

    /** The total in the header; zero exactly when the empty state shows. */
    function Total(): (n: nat)
      reads this
      ensures n == 0 <==> contents == []
    {
      |contents|
    }

    /** `handleDelete(id)`. `confirmed` is the answer to the confirmation
        dialog and `seen` the list as it stood when the page was drawn: the
        handler's closure captured it, so the filter after the `await` works
        on that list and not on the current one. The returned value is the
        id put in the DELETE request (None: no request). Once an answer
        arrives the list is filtered, whatever its status. */
    method HandleDelete(id: Val, confirmed: bool, reply: DeleteReply, seen: seq<Row>) returns (request: Option<Val>)
      modifies this
      ensures !confirmed ==> request.None? && contents == old(contents)
      ensures confirmed ==> request == Some(id)
      ensures confirmed && reply.Replied? ==> contents == RemoveById(seen, id)
      ensures confirmed && reply.NetworkError? ==> contents == old(contents)
    {
      if !confirmed {
        return None;
      }
      request := Some(id);
      if reply.NetworkError? {
        return;
      }
      contents := RemoveById(seen, id);
    }
  }

  /** Two deletes started from the same drawn list: the second answer
      filters that list again, so the record the first delete removed comes
      back. */
  lemma OverlappingDeletesRestore(seen: seq<Row>, i: nat, first: Val, second: Val)
    requires i < |seen| && Field(seen[i], "_id") == first && first != second
    ensures seen[i] !in RemoveById(seen, first)
    ensures seen[i] in RemoveById(seen, second)
  {
    RemoveByIdKeepsOthers(seen, first);
    RemoveByIdKeepsOthers(seen, second);
  }

  // ---------------------------------------------------------------------
  // Deleting a record served by a backend

  /** The list the admin page receives from GET: the parsed JSON, stored
      as it arrives. When a backend serves it, no record has an `_id`. */
  function FetchedList(env: ContentRoute.Env, stored: seq<Row>): (rows: seq<Row>)
    ensures ContentRoute.ReadSource(env) != ContentRoute.Local ==>
      forall k :: 0 <= k < |rows| ==> "_id" !in rows[k]
  {
    var body := ContentRoute.GetResponse(env, stored).body;
    var parsed := View.ParseBody(body);
    match parsed
    case JsonArray(items) => items
    case _ => assert false; []
  }

  /** When the hosted client or the direct connection serves GET, the
      delete button of any record passes `undefined` (the record has no
      `_id`), and the filter drops every record of the list. */
  lemma DeleteAfterBackendGetClearsList(rows: seq<Row>, i: nat)
    requires forall k :: 0 <= k < |rows| ==> "_id" !in rows[k]
    requires i < |rows|
    ensures Field(rows[i], "_id") == Undefined
    ensures RemoveById(rows, Field(rows[i], "_id")) == []
  {
    RemoveByIdAllMatching(rows, Undefined);
  }

  /** The key the delete is evidently meant to use: `_id` for records of
      the local file, `id` for records served by a backend. */
  function ItemKey(c: Row): Val {
    Coalesce([Field(c, "_id"), Field(c, "id")])
  }

  /** The filter on that key. */
  function RemoveByKey(items: seq<Row>, key: Val): (kept: seq<Row>)
    ensures forall k :: 0 <= k < |kept| ==> ItemKey(kept[k]) != key
    ensures |kept| <= |items|
  {
    if items == [] then []
    else
      var rest := RemoveByKey(items[1..], key);
      if ItemKey(items[0]) != key then [items[0]] + rest else rest
  }

  predicate DistinctKeys(items: seq<Row>) {
    forall j, k :: 0 <= j < k < |items| ==> ItemKey(items[j]) != ItemKey(items[k])
  }

  lemma {:induction false} RemoveByKeyKeepsOthers(items: seq<Row>, key: Val)
    requires forall k :: 0 <= k < |items| ==> ItemKey(items[k]) != key
    ensures RemoveByKey(items, key) == items
  {
    if items != [] {
      RemoveByKeyKeepsOthers(items[1..], key);
    }
  }

  /** With distinct keys, deleting the record at index `i` removes that
      record and nothing else. */
  lemma {:induction false} RemoveByKeyRemovesOnlyClicked(items: seq<Row>, i: nat)
    requires i < |items| && DistinctKeys(items)
    ensures RemoveByKey(items, ItemKey(items[i])) == items[..i] + items[i + 1..]
  {
    var key := ItemKey(items[i]);
    if i == 0 {
      RemoveByKeyKeepsOthers(items[1..], key);
    } else {
      assert items[1..][i - 1] == items[i];
      RemoveByKeyRemovesOnlyClicked(items[1..], i - 1);
      assert items[1..][..i - 1] + items[1..][i..] == items[1..i] + items[i + 1..];
      assert items[..i] == [items[0]] + items[1..i];
    }
  }
}
