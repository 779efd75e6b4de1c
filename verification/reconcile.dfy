/** A node takes over the main panel's user list (app/main.py: `api_node_sync`; app/db.py:
    `create_user`, `update_user`, `delete_user`; app/nodes.py: `SYNC_FIELDS`). */
module Reconcile {
  import opened Text
  import opened Counters

  /** The synced fields other than the uuid. */
  datatype Field =
    | Name | Enabled | Protocol | Transport | Security | Fingerprint | Alpn | PublicKey | ShortId | SpiderX
    | MaxDevices | QuotaBytes | ExpireAt | MaxRequests | Avatar | SsMethod | WgIp | WgPub

  datatype Value = Null | Text(s: string) | Number(n: int)

  /** One entry of the payload; a missing uid or uuid is "", a missing field is null. */
  datatype Item = Item(uid: string, uuid: string, data: map<Field, Value>)

  /** A row of the node's user table: synced fields, usage counters, and `rest` for every column the
      payload does not carry. */
  datatype Row = Row(uuid: string, data: map<Field, Value>, usage: Pair, rest: string)

  type Table = map<string, Row>

  function Sent(item: Item, f: Field): Value {
    if f in item.data then item.data[f] else Null
  }

  function At(row: Row, f: Field): Value {
    if f in row.data then row.data[f] else Null
  }

  predicate Truthy(v: Value) {
    !(v == Null || v == Text("") || v == Number(0))
  }

  /** What `update_user` stores for a field. */
  function Stored(f: Field, v: Value): Value {
    if f.Enabled? then Number(if Truthy(v) then 1 else 0) else v
  }

  const NAME_LIMIT := 64

  function Default(f: Field): Value {
    match f
    case Name => Text("User")
    case Enabled => Number(1)
    case Protocol => Text("vless")
    case Transport => Text("ws")
    case Security => Text("tls")
    case Fingerprint => Text("chrome")
    case Alpn => Text("http/1.1")
    case MaxDevices => Number(0)
    case QuotaBytes => Number(0)
    case ExpireAt => Null
    case MaxRequests => Number(0)
    case SsMethod => Text("2022-blake3-aes-128-gcm")
    case _ => Text("")
  }

  /** What `create_user` stores: the name is cut to 64 characters. */
  function Created(f: Field, v: Value): Value {
    if v == Null then Default(f)
    else if f.Name? && v.Text? && |v.s| > NAME_LIMIT then Text(v.s[..NAME_LIMIT])
    else Stored(f, v)
  }

  function NewRow(item: Item): Row {
    Row(item.uuid, map f: Field | true :: Created(f, Sent(item, f)), ZERO, "")
  }

  function Updated(row: Row, item: Item): Row {
    Row(item.uuid,
        map f: Field | f in row.data || Sent(item, f) != Null ::
          if Sent(item, f) != Null then Stored(f, Sent(item, f)) else row.data[f],
        row.usage, row.rest)
  }

  /** The row an item leaves behind. */
  function RowFor(rows: Table, item: Item): Row {
    var uid := Strip(item.uid);
    if uid in rows then Updated(rows[uid], item) else NewRow(item)
  }

  predicate Valid(item: Item) {
    Strip(item.uid) != "" && item.uuid != ""
  }

  function Uids(items: seq<Item>): set<string> {
    set i | 0 <= i < |items| && Valid(items[i]) :: Strip(items[i].uid)
  }

  /** `uuid TEXT UNIQUE`: another row has it. */
  predicate Clash(rows: Table, uid: string, uuid: string) {
    exists v :: v in rows && v != uid && rows[v].uuid == uuid
  }

  /** The table after a request; `Clashed` is the IntegrityError, with the rows written so far. */
  datatype Outcome = Done(rows: Table) | Clashed(rows: Table)

  /** The loop over the payload. */
  function Apply(rows: Table, items: seq<Item>): Outcome {
    if items == [] then Done(rows)
    else
      var before := Apply(rows, items[..|items| - 1]);
      var item := items[|items| - 1];
      if before.Clashed? || !Valid(item) then before
      else if Clash(before.rows, Strip(item.uid), item.uuid) then Clashed(before.rows)
      else Done(before.rows[Strip(item.uid) := RowFor(before.rows, item)])
  }

  function Only(rows: Table, uids: set<string>): Table {
    map uid | uid in rows && uid in uids :: rows[uid]
  }

  /** The whole request. */
  function Sync(rows: Table, items: seq<Item>): Outcome {
    var applied := Apply(rows, items);
    if applied.Clashed? then applied else Done(Only(applied.rows, Uids(items)))
  }

  class NodeDatabase {
    var rows: Table

    constructor ()
      ensures rows == map[]
    {
      rows := map[];
    }

    /** `update_user` or `create_user`; false is the IntegrityError of the uuid column. */
    method Upsert(item: Item) returns (ok: bool)
      requires Valid(item)
      modifies this
      ensures ok <==> !Clash(old(rows), Strip(item.uid), item.uuid)
      ensures ok ==> rows == old(rows)[Strip(item.uid) := RowFor(old(rows), item)]
      ensures !ok ==> rows == old(rows)
    {
      hide Strip, Updated, NewRow;
      var uid := Strip(item.uid);
      if v :| v in rows && v != uid && rows[v].uuid == item.uuid {
        return false;
      }
      if uid in rows {
        rows := rows[uid := Updated(rows[uid], item)];
      } else {
        rows := rows[uid := NewRow(item)];
      }
      ok := true;
    }

    /** The loop over the payload. */
    method WriteUsers(items: seq<Item>) returns (ok: bool, seen: set<string>)
      modifies this
      ensures Apply(old(rows), items) == if ok then Done(rows) else Clashed(rows)
      ensures ok ==> seen == Uids(items)
    {
      hide Strip, RowFor, Clash;
      seen := {};
      for i := 0 to |items|
        invariant Apply(old(rows), items[..i]) == Done(rows)
        invariant seen == Uids(items[..i])
      {
        assert items[..i + 1][..i] == items[..i];
        UidsAppend(items[..i], items[i]);
        assert items[..i] + [items[i]] == items[..i + 1];
        var uid := Strip(items[i].uid);
        if uid == "" || items[i].uuid == "" {
          continue;
        }
        seen := seen + {uid};
        ok := Upsert(items[i]);
        if !ok {
          ApplyStops(old(rows), items, i + 1);
          return;
        }
      }
      assert items[..|items|] == items;
      ok := true;
    }

    /** Dropping the users that are no longer assigned to this node. */
    method DropUnseen(seen: set<string>)
      modifies this
      ensures rows == Only(old(rows), seen)
    {
      var stale := rows.Keys - seen;
      while stale != {}
        invariant stale !! seen && stale <= rows.Keys
        invariant forall uid :: uid in rows <==> uid in old(rows) && (uid in seen || uid in stale)
        invariant forall uid :: uid in rows ==> rows[uid] == old(rows)[uid]
      {
        var uid :| uid in stale;
        rows := rows - {uid};
        stale := stale - {uid};
      }
    }

    /** `api_node_sync`, after the secret has been checked. */
    method ApiNodeSync(items: seq<Item>) returns (ok: bool)
      modifies this
      ensures Sync(old(rows), items) == if ok then Done(rows) else Clashed(rows)
    {
      hide Apply, Uids, Only;
      var seen: set<string>;
      ok, seen := WriteUsers(items);
      if ok {
        DropUnseen(seen);
      }
    }
  }

  lemma UidsAppend(items: seq<Item>, item: Item)
    ensures Uids(items + [item]) == Uids(items) + if Valid(item) then {Strip(item.uid)} else {}
  {
    hide Strip, Valid;
    var all := items + [item];
    assert forall i :: 0 <= i < |items| ==> all[i] == items[i];
    assert all[|items|] == item;
    forall uid | uid in Uids(items)
      ensures uid in Uids(all)
    {
      var i :| 0 <= i < |items| && Valid(items[i]) && Strip(items[i].uid) == uid;
      assert all[i] == items[i];
    }
  }

  /** A clash ends the request. */
  lemma {:induction false} ApplyStops(rows: Table, items: seq<Item>, i: nat)
    requires i <= |items| && Apply(rows, items[..i]).Clashed?
    ensures Apply(rows, items) == Apply(rows, items[..i])
    decreases |items|
  {
    if i < |items| {
      var most := items[..|items| - 1];
      assert most[..i] == items[..i];
      ApplyStops(rows, most, i);
    } else {
      assert items[..i] == items;
    }
  }

  // ---------------------------------------------------------------- what a request leaves behind

  /** No two valid entries share a uid or a uuid. */
  predicate DistinctItems(items: seq<Item>) {
    forall i, j :: 0 <= i < j < |items| && Valid(items[i]) && Valid(items[j]) ==>
      Strip(items[i].uid) != Strip(items[j].uid) && items[i].uuid != items[j].uuid
  }

  lemma UidMember(items: seq<Item>, i: nat)
    requires i < |items| && Valid(items[i])
    ensures Strip(items[i].uid) in Uids(items)
  {
  }

  lemma NotSeen(items: seq<Item>)
    requires items != [] && DistinctItems(items) && Valid(items[|items| - 1])
    ensures Strip(items[|items| - 1].uid) !in Uids(items[..|items| - 1])
  {
    hide Strip, Valid;
  }

  lemma NoUids()
    ensures Uids([]) == {}
  {
  }

  lemma RowForSame(a: Table, b: Table, item: Item)
    requires Strip(item.uid) in a <==> Strip(item.uid) in b
    requires Strip(item.uid) in a ==> a[Strip(item.uid)] == b[Strip(item.uid)]
    ensures RowFor(a, item) == RowFor(b, item)
  {
    hide Strip, Updated, NewRow;
  }

  /** After the loop every payload user has the row made from its entry and the old row, and all
      other rows are as they were. */
  lemma {:induction false} Applied(rows: Table, items: seq<Item>)
    requires DistinctItems(items)
    ensures var r := Apply(rows, items).rows;
      && (forall uid :: uid in rows && uid !in Uids(items) ==> uid in r && r[uid] == rows[uid])
      && (Apply(rows, items).Done? ==> r.Keys == rows.Keys + Uids(items))
      && (Apply(rows, items).Done? ==> forall i :: 0 <= i < |items| && Valid(items[i]) ==>
            Strip(items[i].uid) in r && r[Strip(items[i].uid)] == RowFor(rows, items[i]))
  {
    hide Strip, Valid, RowFor, Uids, Clash;
    if items == [] {
      assert Uids(items) == {} by {
        NoUids();
      }
    } else {
      var most, last := items[..|items| - 1], items[|items| - 1];
      Applied(rows, most);
      assert items == most + [last];
      UidsAppend(most, last);
      if Valid(last) {
        NotSeen(items);
        if Apply(rows, most).Done? {
          RowForSame(Apply(rows, most).rows, rows, last);
        }
      }
      assert forall i :: 0 <= i < |most| ==> most[i] == items[i];
    }
  }

  /** After a successful request the node's users are exactly the valid ones of the payload. */
  lemma SyncedUids(rows: Table, items: seq<Item>)
    requires DistinctItems(items) && Sync(rows, items).Done?
    ensures Sync(rows, items).rows.Keys == Uids(items)
    ensures forall uid :: uid in Sync(rows, items).rows <==>
      uid != "" && exists i :: 0 <= i < |items| && Strip(items[i].uid) == uid && items[i].uuid != ""
  {
    hide Apply, Strip;
    Applied(rows, items);
    assert Sync(rows, items).rows.Keys == Uids(items);
    forall uid
      ensures uid in Uids(items) <==>
        uid != "" && exists i :: 0 <= i < |items| && Strip(items[i].uid) == uid && items[i].uuid != ""
    {
    }
  }

  /** What the row of a payload user holds in a field that was sent: the value itself, except that the
      flag becomes 1 or 0 and the name of a new user is cut. */
  predicate HoldsSent(f: Field, sent: Value, held: Value, isNew: bool) {
    if f == Enabled then
      held == Number(if sent == Text("") || sent == Number(0) then 0 else 1)
    else if f == Name && isNew && sent.Text? then
      held.Text? && held.s <= sent.s && (|held.s| == 64 || (|held.s| < 64 && held.s == sent.s))
    else held == sent
  }

  /** What a new user's row holds in a field that was not sent. */
  predicate HoldsDefault(f: Field, held: Value) {
    match f
    case Name => held == Text("User")
    case Enabled => held == Number(1)
    case Protocol => held == Text("vless")
    case Transport => held == Text("ws")
    case Security => held == Text("tls")
    case Fingerprint => held == Text("chrome")
    case Alpn => held == Text("http/1.1")
    case SsMethod => held == Text("2022-blake3-aes-128-gcm")
    case ExpireAt => held == Null
    case MaxDevices | QuotaBytes | MaxRequests => held == Number(0)
    case PublicKey | ShortId | SpiderX | Avatar | WgIp | WgPub => held == Text("")
  }

  /** Every non-null field is the payload's, every null field keeps its old value or gets the default
      of a new user, and the usage and the other columns of a surviving user are untouched. */
  lemma SyncedRow(rows: Table, items: seq<Item>, i: nat, f: Field)
    requires DistinctItems(items) && Sync(rows, items).Done? && i < |items| && Valid(items[i])
    ensures var uid := Strip(items[i].uid);
      && uid in Sync(rows, items).rows
      && var row := Sync(rows, items).rows[uid];
         && row.uuid == items[i].uuid
         && (uid in rows ==> row.usage == rows[uid].usage && row.rest == rows[uid].rest)
         && (uid !in rows ==> row.usage == Pair(0, 0) && row.rest == "")
         && (Sent(items[i], f) != Null ==> HoldsSent(f, Sent(items[i], f), At(row, f), uid !in rows))
         && (Sent(items[i], f) == Null && uid in rows ==> At(row, f) == At(rows[uid], f))
         && (Sent(items[i], f) == Null && uid !in rows ==> HoldsDefault(f, At(row, f)))
  {
    hide Apply, Uids, Strip, Valid, HoldsSent, HoldsDefault, Stored, Default, Created;
    Applied(rows, items);
    UidMember(items, i);
    SentOrDefault(f, Sent(items[i], f));
  }

  lemma SentOrDefault(f: Field, v: Value)
    ensures v != Null ==> HoldsSent(f, v, Stored(f, v), false) && HoldsSent(f, v, Created(f, v), true)
    ensures v == Null ==> HoldsDefault(f, Created(f, v))
  {
  }

  // ---------------------------------------------------------------- when a request succeeds

  /** No row that the loop has not yet rewritten holds the uuid of an entry of another user. */
  predicate NoStaleUuid(rows: Table, items: seq<Item>) {
    forall i, v :: 0 <= i < |items| && Valid(items[i]) && v in rows && rows[v].uuid == items[i].uuid ==>
      v == Strip(items[i].uid) || v in Uids(items[..i])
  }

  lemma ClashOnlyStale(rows: Table, items: seq<Item>, item: Item)
    requires DistinctItems(items + [item]) && Apply(rows, items).Done? && Valid(item)
    ensures Clash(Apply(rows, items).rows, Strip(item.uid), item.uuid) <==>
      exists v :: v in rows && rows[v].uuid == item.uuid && v != Strip(item.uid) && v !in Uids(items)
  {
    hide Strip, Valid, Apply;
    var all := items + [item];
    assert forall i :: 0 <= i < |items| ==> all[i] == items[i];
    assert all[|items|] == item;
    assert DistinctItems(items);
    Applied(rows, items);
    var r := Apply(rows, items).rows;
    forall v | v in r && v in Uids(items)
      ensures r[v].uuid != item.uuid
    {
      var i :| 0 <= i < |items| && Valid(items[i]) && Strip(items[i].uid) == v;
      assert all[i].uuid != all[|items|].uuid;
      RowForUuid(rows, items[i]);
    }
  }

  lemma RowForUuid(rows: Table, item: Item)
    ensures RowFor(rows, item).uuid == item.uuid
  {
    hide Strip;
  }

  /** A request with distinct entries succeeds exactly when no stale row is in the way. */
  lemma {:induction false} SucceedsExactly(rows: Table, items: seq<Item>)
    requires DistinctItems(items)
    ensures Sync(rows, items).Done? <==> NoStaleUuid(rows, items)
  {
    hide Strip, Valid, RowFor, Uids;
    if items != [] {
      var most, last := items[..|items| - 1], items[|items| - 1];
      SucceedsExactly(rows, most);
      assert items == most + [last];
      assert forall i :: 0 <= i < |most| ==> most[i] == items[i] && most[..i] == items[..i];
      if Apply(rows, most).Done? && Valid(last) {
        ClashOnlyStale(rows, most, last);
      }
    }
  }

  /** The node's table after a run of requests, whether they succeed or not. */
  function AfterAll(rows: Table, payloads: seq<seq<Item>>): Table {
    if payloads == [] then rows
    else Sync(AfterAll(rows, payloads[..|payloads| - 1]), payloads[|payloads| - 1]).rows
  }

  /** Every uuid belongs to one user. The panel mints a new uuid for every user it creates and for
      every regenerated one, so what it sends is of this kind. */
  ghost predicate OwnedRows(owner: string -> string, rows: Table) {
    forall v :: v in rows ==> owner(rows[v].uuid) == v
  }

  ghost predicate OwnedItems(owner: string -> string, items: seq<Item>) {
    forall i :: 0 <= i < |items| && Valid(items[i]) ==> owner(items[i].uuid) == Strip(items[i].uid)
  }

  lemma {:induction false} OwnedNeverClash(owner: string -> string, rows: Table, items: seq<Item>)
    requires OwnedRows(owner, rows) && OwnedItems(owner, items)
    ensures Apply(rows, items).Done? && OwnedRows(owner, Apply(rows, items).rows)
  {
    hide Strip, Valid, RowFor;
    if items != [] {
      var most, last := items[..|items| - 1], items[|items| - 1];
      assert forall i :: 0 <= i < |most| ==> most[i] == items[i];
      OwnedNeverClash(owner, rows, most);
      RowForUuid(Apply(rows, most).rows, last);
    }
  }

  /** As long as every uuid belongs to one user, no request of any run ever fails. */
  lemma {:induction false} OwnedRunsSucceed(owner: string -> string, rows: Table, payloads: seq<seq<Item>>, k: nat)
    requires OwnedRows(owner, rows) && forall p :: p in payloads ==> OwnedItems(owner, p)
    requires k <= |payloads|
    ensures OwnedRows(owner, AfterAll(rows, payloads[..k]))
    ensures k < |payloads| ==> Sync(AfterAll(rows, payloads[..k]), payloads[k]).Done?
  {
    hide OwnedItems, Apply, Uids;
    if k > 0 {
      OwnedRunsSucceed(owner, rows, payloads, k - 1);
      assert payloads[..k][..k - 1] == payloads[..k - 1];
      OwnedNeverClash(owner, AfterAll(rows, payloads[..k - 1]), payloads[k - 1]);
    }
    if k < |payloads| {
      OwnedNeverClash(owner, AfterAll(rows, payloads[..k]), payloads[k]);
    }
  }

  /** The payload gives the uuid of row `v` to another user and does not mention `v`. */
  predicate Reassigns(items: seq<Item>, v: string, uuid: string) {
    && DistinctItems(items) && v !in Uids(items)
    && exists i :: 0 <= i < |items| && Valid(items[i]) && items[i].uuid == uuid
  }

  lemma ReassignClashes(rows: Table, items: seq<Item>, v: string)
    requires v in rows && Reassigns(items, v, rows[v].uuid)
    ensures Sync(rows, items).Clashed? && v in Sync(rows, items).rows && Sync(rows, items).rows[v] == rows[v]
  {
    hide Strip, Valid, Apply, Sync, Uids;
    var i :| 0 <= i < |items| && Valid(items[i]) && items[i].uuid == rows[v].uuid;
    UidMember(items, i);
    UidsPrefix(items, i);
    assert !NoStaleUuid(rows, items);
    SucceedsExactly(rows, items);
    KeepsStale(rows, items, v);
  }

  /** A payload of the other kind is refused however often it is sent again, in whatever form: the
      node still has the old row when it inserts the new one. */
  lemma {:induction false} StaleRowBlocksForEver(rows: Table, payloads: seq<seq<Item>>, v: string, k: nat)
    requires v in rows && forall p :: p in payloads ==> Reassigns(p, v, rows[v].uuid)
    requires k < |payloads|
    ensures Sync(AfterAll(rows, payloads[..k]), payloads[k]).Clashed?
    ensures v in AfterAll(rows, payloads[..k + 1]) && AfterAll(rows, payloads[..k + 1])[v] == rows[v]
  {
    hide Sync, Reassigns;
    assert payloads[..k + 1][..k] == payloads[..k];
    if k > 0 {
      StaleRowBlocksForEver(rows, payloads, v, k - 1);
      assert payloads[..k - 1 + 1] == payloads[..k];
    }
    ReassignClashes(AfterAll(rows, payloads[..k]), payloads[k], v);
  }

  lemma UidsPrefix(items: seq<Item>, n: nat)
    requires n <= |items|
    ensures Uids(items[..n]) <= Uids(items)
  {
    hide Strip, Valid;
    assert forall i :: 0 <= i < n ==> items[..n][i] == items[i];
  }

  lemma KeepsStale(rows: Table, items: seq<Item>, v: string)
    requires DistinctItems(items) && v in rows && v !in Uids(items) && Sync(rows, items).Clashed?
    ensures v in Sync(rows, items).rows && Sync(rows, items).rows[v] == rows[v]
  {
    hide Apply, Uids, DistinctItems;
    Applied(rows, items);
  }

  // ---------------------------------------------------------------- applying a payload twice

  /** The name, if any, fits. */
  predicate ShortName(item: Item) {
    Sent(item, Name).Text? ==> |Sent(item, Name).s| <= 64
  }

  lemma UpdateTwice(row: Row, item: Item)
    ensures Updated(Updated(row, item), item) == Updated(row, item)
  {
    hide Stored;
  }

  lemma CreateThenUpdate(item: Item)
    ensures Updated(NewRow(item), item) == NewRow(item) <==> ShortName(item)
  {
    hide Default;
    var row := NewRow(item);
    var again := Updated(row, item);
    assert forall f: Field :: f in row.data && f in again.data;
    assert forall f: Field :: f != Name ==> again.data[f] == row.data[f];
    assert again.data[Name] == row.data[Name] <==> ShortName(item);
    assert again.data.Keys == row.data.Keys;
  }

  /** The rows of a synced table are the payload's, so syncing it again meets no stale row. */
  lemma AgainSucceeds(rows: Table, items: seq<Item>)
    requires DistinctItems(items) && Sync(rows, items).Done?
    ensures NoStaleUuid(Sync(rows, items).rows, items)
  {
    hide Strip, Valid, Apply;
    Applied(rows, items);
    SyncedUids(rows, items);
    var r := Sync(rows, items).rows;
    forall i, v | 0 <= i < |items| && Valid(items[i]) && v in r && r[v].uuid == items[i].uuid
      ensures v == Strip(items[i].uid)
    {
      var j :| 0 <= j < |items| && Valid(items[j]) && Strip(items[j].uid) == v;
      RowForUuid(rows, items[j]);
      assert i == j;
    }
  }

  /** One user of the payload, after the first and the second request. */
  lemma TwiceRow(rows: Table, items: seq<Item>, i: nat)
    requires DistinctItems(items) && Sync(rows, items).Done? && i < |items| && Valid(items[i])
    ensures var once := Sync(rows, items).rows;
      && Sync(once, items).Done?
      && var uid := Strip(items[i].uid);
         && uid in once && uid in Sync(once, items).rows
         && (Sync(once, items).rows[uid] == once[uid] <==> (uid !in rows ==> ShortName(items[i])))
  {
    hide Strip, Valid, Apply, Updated, NewRow, ShortName, NoStaleUuid, DistinctItems, Uids;
    var once := Sync(rows, items).rows;
    AgainSucceeds(rows, items);
    SucceedsExactly(once, items);
    Applied(rows, items);
    Applied(once, items);
    UidMember(items, i);
    var uid := Strip(items[i].uid);
    if uid in rows {
      UpdateTwice(rows[uid], items[i]);
    } else {
      CreateThenUpdate(items[i]);
    }
  }

  /** Applying the same payload twice is applying it once, exactly when no user whose name is longer
      than 64 characters has to be created. */
  lemma SyncTwice(rows: Table, items: seq<Item>)
    requires DistinctItems(items) && Sync(rows, items).Done?
    ensures var once := Sync(rows, items).rows;
      Sync(once, items) == Done(once) <==>
      forall i :: 0 <= i < |items| && Valid(items[i]) && Strip(items[i].uid) !in rows ==> ShortName(items[i])
  {
    hide Strip, Valid, Apply, Sync, ShortName, NoStaleUuid, DistinctItems;
    var once := Sync(rows, items).rows;
    AgainSucceeds(rows, items);
    SucceedsExactly(once, items);
    SyncedUids(rows, items);
    SyncedUids(once, items);
    var twice := Sync(once, items).rows;
    forall i | 0 <= i < |items| && Valid(items[i])
      ensures Strip(items[i].uid) in once && Strip(items[i].uid) in twice
      ensures twice[Strip(items[i].uid)] == once[Strip(items[i].uid)] <==>
        (Strip(items[i].uid) !in rows ==> ShortName(items[i]))
    {
      TwiceRow(rows, items, i);
    }
    forall uid | uid in once
      ensures exists i :: 0 <= i < |items| && Valid(items[i]) && Strip(items[i].uid) == uid
    {
      assert uid in Uids(items);
    }
  }
}
