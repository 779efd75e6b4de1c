/** Overlay addresses for WireGuard users (app/wg.py: `allocate_ip`, `ensure_user_keys`). Key pairs
    are fresh values handed in. */
module Overlay {
  import opened Wrappers
  import opened Text
  import Decimal

  /** An IPv4 network by its first and last address. */
  datatype Range = Range(network: nat, broadcast: nat)

  type Subnet = net: Range | net.broadcast < 4294967296 witness Range(0, 0)

  function Octets(ip: nat): seq<nat> {
    [ip / 16777216, ip / 65536 % 256, ip / 256 % 256, ip % 256]
  }

  function Printed(ip: nat): seq<string> {
    [Decimal.Print(ip / 16777216), Decimal.Print(ip / 65536 % 256), Decimal.Print(ip / 256 % 256),
     Decimal.Print(ip % 256)]
  }

  /** `str(ip)` */
  function Dotted(ip: nat): string {
    Join(Printed(ip), '.')
  }

  lemma OctetsInjective(a: nat, b: nat)
    requires Octets(a) == Octets(b)
    ensures a == b
  {
    assert Octets(a)[0] == Octets(b)[0] && Octets(a)[1] == Octets(b)[1];
    assert Octets(a)[2] == Octets(b)[2] && Octets(a)[3] == Octets(b)[3];
    FromOctets(a);
    FromOctets(b);
  }

  lemma FromOctets(a: nat)
    ensures a == 16777216 * (a / 16777216) + 65536 * (a / 65536 % 256) + 256 * (a / 256 % 256) + a % 256
  {
    var b := a / 256;
    var c := b / 256;
    assert a == 256 * b + a % 256 && b == 256 * c + b % 256 && c == 256 * (c / 256) + c % 256;
    assert a / 65536 == c && a / 16777216 == c / 256;
  }

  lemma NoDot(n: nat)
    ensures '.' !in Decimal.Print(n)
  {
    hide Decimal.Print;
    var p := Decimal.Print(n);
    assert forall i :: 0 <= i < |p| ==> IsDigit(p[i]);
  }

  lemma SplitDotted(ip: nat)
    ensures Split(Dotted(ip), '.') == Printed(ip)
  {
    hide Decimal.Print, Join, Split;
    NoDot(ip / 16777216);
    NoDot(ip / 65536 % 256);
    NoDot(ip / 256 % 256);
    NoDot(ip % 256);
    SplitJoin(Printed(ip), '.');
  }

  /** Different addresses are written differently. */
  lemma DottedInjective(a: nat, b: nat)
    requires Dotted(a) == Dotted(b)
    ensures a == b
  {
    hide Decimal.Print, Join, Split, Dotted;
    SplitDotted(a);
    SplitDotted(b);
    assert Printed(a)[0] == Printed(b)[0] && Printed(a)[1] == Printed(b)[1];
    assert Printed(a)[2] == Printed(b)[2] && Printed(a)[3] == Printed(b)[3];
    Decimal.PrintInjective(a / 16777216, b / 16777216);
    Decimal.PrintInjective(a / 65536 % 256, b / 65536 % 256);
    Decimal.PrintInjective(a / 256 % 256, b / 256 % 256);
    Decimal.PrintInjective(a % 256, b % 256);
    OctetsInjective(a, b);
  }

  /** The number a text in dotted form stands for: four decimal numbers below 256, the first one worth
      most. */
  function Address(s: string): Option<nat> {
    var p := Split(s, '.');
    if |p| != 4 then None
    else
      var a, b, c, d := Decimal.ParseInt(p[0]), Decimal.ParseInt(p[1]), Decimal.ParseInt(p[2]), Decimal.ParseInt(p[3]);
      if a.Some? && b.Some? && c.Some? && d.Some? && 0 <= a.value < 256 && 0 <= b.value < 256 && 0 <= c.value < 256 &&
         0 <= d.value < 256 then Some(16777216 * a.value + 65536 * b.value + 256 * c.value + d.value)
      else None
  }

  /** An address is written so that it is read back as its number. */
  lemma AddressDotted(ip: nat)
    requires ip < 4294967296
    ensures Address(Dotted(ip)) == Some(ip)
  {
    hide Decimal.Print, Decimal.ParseInt, Join, Split, Dotted;
    SplitDotted(ip);
    Decimal.ParsePrint(ip / 16777216);
    Decimal.ParsePrint(ip / 65536 % 256);
    Decimal.ParsePrint(ip / 256 % 256);
    Decimal.ParsePrint(ip % 256);
    FromOctets(ip);
  }

  lemma DottedNotEmpty(ip: nat)
    ensures Dotted(ip) != ""
  {
    hide Decimal.Print;
    assert |Printed(ip)| == 4;
  }

  // ---------------------------------------------------------------- the allocator

  /** From `ip` on, the first client address that is not taken; one past the last when all are. */
  function FirstFree(net: Subnet, taken: set<string>, ip: nat): nat
    decreases net.broadcast - ip
  {
    if ip > net.broadcast - 1 || Dotted(ip) !in taken then ip else FirstFree(net, taken, ip + 1)
  }

  /** Every client address from `ip` up to, but not including, `k` is taken. */
  predicate TakenUpTo(net: Subnet, taken: set<string>, ip: nat, k: nat) {
    (ip < k ==> k <= net.broadcast) && forall j :: ip <= j < k ==> Dotted(j) in taken
  }

  lemma {:induction false} FirstFreeIsFirst(net: Subnet, taken: set<string>, ip: nat)
    ensures var k := FirstFree(net, taken, ip);
      k >= ip && (k <= net.broadcast - 1 ==> Dotted(k) !in taken) && TakenUpTo(net, taken, ip, k)
    decreases net.broadcast - ip
  {
    hide Dotted, TakenUpTo;
    if ip <= net.broadcast - 1 && Dotted(ip) in taken {
      FirstFreeIsFirst(net, taken, ip + 1);
      OneMoreTaken(net, taken, ip, FirstFree(net, taken, ip + 1));
    } else {
      NoneTaken(net, taken, ip);
    }
  }

  lemma OneMoreTaken(net: Subnet, taken: set<string>, ip: nat, k: nat)
    requires ip <= net.broadcast - 1 && Dotted(ip) in taken && TakenUpTo(net, taken, ip + 1, k) && k > ip
    ensures TakenUpTo(net, taken, ip, k)
  {
    hide Dotted;
  }

  lemma NoneTaken(net: Subnet, taken: set<string>, ip: nat)
    ensures TakenUpTo(net, taken, ip, ip)
  {
  }

  function Allocated(net: Subnet, taken: set<string>): string {
    var k := FirstFree(net, taken, net.network + 2);
    if k <= net.broadcast - 1 then Dotted(k) else ""
  }

  /** The allocator's answer, read as a number: the least free address from the third one of the
      subnet to the last but one, and "" exactly when none of them is free. */
  lemma AllocatedIsLeastFree(net: Subnet, taken: set<string>)
    ensures var r := Allocated(net, taken);
      && (r == "" <==> forall ip :: net.network + 2 <= ip <= net.broadcast - 1 ==> Dotted(ip) in taken)
      && (r != "" ==>
            && r !in taken && Address(r).Some? && net.network + 2 <= Address(r).value <= net.broadcast - 1
            && r == Dotted(Address(r).value)
            && forall j :: net.network + 2 <= j < Address(r).value ==> Dotted(j) in taken)
  {
    hide Dotted, Address;
    var k := FirstFree(net, taken, net.network + 2);
    FirstFreeIsFirst(net, taken, net.network + 2);
    if k <= net.broadcast - 1 {
      DottedNotEmpty(k);
      AddressDotted(k);
    }
  }

  lemma {:induction false} RangeBound(taken: set<string>, lo: nat, n: nat)
    requires forall j :: lo <= j < lo + n ==> Dotted(j) in taken
    ensures n <= |taken|
  {
    hide Dotted;
    if n > 0 {
      var last := Dotted(lo + n - 1);
      forall j | lo <= j < lo + n - 1
        ensures Dotted(j) in taken - {last}
      {
        if Dotted(j) == last {
          DottedInjective(j, lo + n - 1);
        }
      }
      RangeBound(taken - {last}, lo, n - 1);
    }
  }

  /** As long as fewer addresses are taken than the subnet has for clients, there is one left. */
  lemma RoomLeft(net: Subnet, taken: set<string>)
    requires |taken| < net.broadcast - net.network - 2
    ensures Allocated(net, taken) != ""
  {
    hide Dotted, Allocated;
    AllocatedIsLeastFree(net, taken);
    if Allocated(net, taken) == "" {
      RangeBound(taken, net.network + 2, net.broadcast - net.network - 2);
    }
  }

  datatype Row = Row(priv: string, pub: string, ip: string)

  type Users = map<string, Row>

  /** `{u.get("wg_ip") for u in db.list_users() if u.get("wg_ip")}` */
  function Taken(users: Users): set<string> {
    set uid | uid in users && users[uid].ip != "" :: users[uid].ip
  }

  /** The row after `ensure_user_keys`. */
  function Ensured(net: Subnet, users: Users, row: Row, priv: string, pub: string): Row {
    var keyed := if row.priv == "" || row.pub == "" then row.(priv := priv, pub := pub) else row;
    if row.ip == "" then keyed.(ip := Allocated(net, Taken(users))) else keyed
  }

  class Panel {
    const net: Subnet
    var users: Users

    constructor (net: Subnet)
      ensures this.net == net && users == map[]
    {
      this.net := net;
      users := map[];
    }

    /** `allocate_ip` */
    method AllocateIp() returns (s: string)
      ensures s == Allocated(net, Taken(users))
    {
      hide Dotted;
      var taken := Taken(users);
      var ip := net.network + 2;
      var last := net.broadcast - 1;
      while ip <= last
        invariant FirstFree(net, taken, ip) == FirstFree(net, taken, net.network + 2)
        decreases last - ip
      {
        s := Dotted(ip);
        if s !in taken {
          return s;
        }
        ip := ip + 1;
      }
      s := "";
    }

    /** `ensure_user_keys`, with the key pair `gen_keypair` would give. */
    method EnsureUserKeys(uid: string, priv: string, pub: string)
      requires uid in users
      modifies this`users
      ensures users == old(users)[uid := Ensured(net, old(users), old(users)[uid], priv, pub)]
      ensures var was, row := old(users)[uid], users[uid];
        && (was.priv == "" || was.pub == "" ==> row.priv == priv && row.pub == pub)
        && (was.priv != "" && was.pub != "" ==> row.priv == was.priv && row.pub == was.pub)
        && (was.ip != "" ==> row.ip == was.ip)
        && (was.ip == "" ==> row.ip == Allocated(net, Taken(old(users))))
    {
      hide Allocated;
      var u := users[uid];
      var row := u;
      if u.priv == "" || u.pub == "" {
        row := row.(priv := priv, pub := pub);
      }
      if u.ip == "" {
        var ip := AllocateIp();
        row := row.(ip := ip);
      }
      if row != u {
        users := users[uid := row];
      }
    }
  }

  // ---------------------------------------------------------------- runs

  datatype Event =
    | Create(uid: string)
    | Delete(uid: string)
    | Fill(uid: string, priv: string, pub: string)

  function Step(net: Subnet, users: Users, e: Event): Users {
    match e
    case Create(uid) => if uid in users then users else users[uid := Row("", "", "")]
    case Delete(uid) => users - {uid}
    case Fill(uid, priv, pub) =>
      if uid in users then users[uid := Ensured(net, users, users[uid], priv, pub)] else users
  }

  function After(net: Subnet, run: seq<Event>): Users {
    if run == [] then map[] else Step(net, After(net, run[..|run| - 1]), run[|run| - 1])
  }

  /** A client address of the subnet: neither the network, nor the server, nor the broadcast address. */
  predicate InRange(net: Subnet, s: string) {
    Address(s).Some? && net.network + 2 <= Address(s).value <= net.broadcast - 1
  }

  /** No two users share an address, and every address belongs to the subnet's client range. */
  ghost predicate Inv(net: Subnet, users: Users) {
    && (forall u, v :: u in users && v in users && u != v && users[u].ip != "" ==> users[u].ip != users[v].ip)
    && (forall u :: u in users && users[u].ip != "" ==> InRange(net, users[u].ip))
  }

  lemma FillKeeps(net: Subnet, users: Users, e: Event)
    requires Inv(net, users) && e.Fill?
    ensures Inv(net, Step(net, users, e))
  {
    hide Dotted, Allocated, Address;
    if e.uid in users && users[e.uid].ip == "" {
      AllocatedIsLeastFree(net, Taken(users));
      var r := Allocated(net, Taken(users));
      forall v | v in users && v != e.uid && r != ""
        ensures users[v].ip != r
      {
        if users[v].ip != "" {
          assert users[v].ip in Taken(users);
        }
      }
    }
  }

  lemma StepKeeps(net: Subnet, users: Users, e: Event)
    requires Inv(net, users)
    ensures Inv(net, Step(net, users, e))
  {
    hide InRange, Ensured;
    if e.Fill? {
      FillKeeps(net, users, e);
    }
  }

  /** Over any run of creations, deletions and key fillings. */
  lemma {:induction false} AddressesStayApart(net: Subnet, run: seq<Event>)
    ensures Inv(net, After(net, run))
  {
    hide Step, Inv;
    if run == [] {
      NoAddresses(net);
    } else {
      AddressesStayApart(net, run[..|run| - 1]);
      StepKeeps(net, After(net, run[..|run| - 1]), run[|run| - 1]);
    }
  }

  lemma NoAddresses(net: Subnet)
    ensures Inv(net, map[])
  {
  }

  /** Filling twice is filling once: keys are kept, and an address is only looked for again when the
      range was exhausted. */
  lemma FillTwice(net: Subnet, users: Users, e: Event, f: Event)
    requires e.Fill? && f.Fill? && e.uid == f.uid && e.priv != "" && e.pub != ""
    ensures Step(net, Step(net, users, e), f) == Step(net, users, e)
  {
    hide Allocated;
    if e.uid in users {
      var once := Step(net, users, e);
      if once[e.uid].ip == "" {
        assert forall uid :: uid in users && uid != e.uid ==> once[uid] == users[uid];
        assert Taken(once) == Taken(users) by {
          SameTaken(users, once, e.uid);
        }
      }
    }
  }

  lemma SameTaken(a: Users, b: Users, uid: string)
    requires a.Keys == b.Keys && uid in a && a[uid].ip == "" && b[uid].ip == ""
    requires forall v :: v in a && v != uid ==> a[v] == b[v]
    ensures Taken(a) == Taken(b)
  {
    forall v | v in a
      ensures a[v].ip == b[v].ip
    {
      assert v != uid ==> a[v] == b[v];
    }
  }
}
