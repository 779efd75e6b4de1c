/** Subscription bodies and groups (app/links.py: `subscription_text`; app/main.py:
    `_group_members`, `_group_payload`, `sub_plain`; app/tasks.py: `_housekeeping`). */
module Subscription {
  import opened Wrappers
  import opened Text
  import opened Base64
  import Utf8

  /** `subscription_text` */
  function SubscriptionText(links: seq<string>): string {
    Encode64(Utf8.Encode(Join(links, '\n')))
  }

  /** What a client does with a body: decode it and take it apart at the newlines. */
  function ReadBody(body: string): Option<seq<string>> {
    var bytes := Decode64(body);
    if bytes.Some? then Some(Split(Utf8.Decode(bytes.value, ""), '\n')) else None
  }

  predicate OneLine(link: string) {
    '\n' !in link
  }

  /** A client gets exactly the published list, if and only if the list is not empty and no link runs
      over a line. */
  lemma BodyRoundTrip(links: seq<string>)
    ensures ReadBody(SubscriptionText(links)) == Some(links) <==>
      links != [] && forall i :: 0 <= i < |links| ==> OneLine(links[i])
  {
    hide Encode64, Decode64, Utf8.Encode, Utf8.Decode, Join, Split;
    var text := Join(links, '\n');
    DecodeEncode64(Utf8.Encode(text));
    Utf8.DecodeEncode(text, "");
    if links != [] && forall i :: 0 <= i < |links| ==> OneLine(links[i]) {
      SplitJoin(links, '\n');
    }
  }

  // ---------------------------------------------------------------- groups

  /** A user as far as a group looks at it: the flag, the time of expiry (0 for none), the built links
      and the info links. */
  datatype Member = Member(enabled: bool, expireAt: int, links: seq<string>, info: seq<string>)

  /** `_group_members`: existing and enabled; expiry is not looked at. */
  function Usable(uids: seq<string>, users: map<string, Member>): seq<Member> {
    if uids == [] then []
    else
      Usable(uids[..|uids| - 1], users) +
      var uid := uids[|uids| - 1];
      if uid in users && users[uid].enabled then [users[uid]] else []
  }

  /** One line added unless it is empty or already there. */
  function Added(links: seq<string>, line: string): seq<string> {
    if line == "" || line in links then links else links + [line]
  }

  function AddedAll(links: seq<string>, lines: seq<string>): seq<string> {
    if lines == [] then links else Added(AddedAll(links, lines[..|lines| - 1]), lines[|lines| - 1])
  }

  /** The lines of all members one after the other. */
  function Lines(members: seq<Member>): seq<string> {
    if members == [] then [] else Lines(members[..|members| - 1]) + members[|members| - 1].links
  }

  function Infos(members: seq<Member>): seq<string> {
    if members == [] then [] else Infos(members[..|members| - 1]) + members[|members| - 1].info
  }

  lemma {:induction false} AddedAllAppend(links: seq<string>, a: seq<string>, b: seq<string>)
    ensures AddedAll(AddedAll(links, a), b) == AddedAll(links, a + b)
  {
    if b == [] {
      assert a + b == a;
    } else {
      assert (a + b)[..|a + b| - 1] == a + b[..|b| - 1];
      AddedAllAppend(links, a, b[..|b| - 1]);
    }
  }

  /** `_group_payload`: the links of a group and its info links. */
  method GroupPayload(uids: seq<string>, users: map<string, Member>, includeInfo: bool)
    returns (links: seq<string>, info: seq<string>)
    ensures links == GroupLines(uids, users)
    ensures info == GroupInfo(uids, users, includeInfo)
  {
    links, info := [], [];
    for i := 0 to |uids|
      invariant links == AddedAll([], Lines(Usable(uids[..i], users)))
      invariant info == if includeInfo then Infos(Usable(uids[..i], users)) else []
    {
      assert uids[..i + 1][..i] == uids[..i];
      var before := Usable(uids[..i], users);
      if uids[i] !in users || !users[uids[i]].enabled {
        assert before + [] == before;
        continue;
      }
      var u := users[uids[i]];
      assert (before + [u])[..|before|] == before;
      AddedAllAppend([], Lines(before), u.links);
      links := AddMember(links, u.links);
      if includeInfo {
        info := info + u.info;
      }
    }
    assert uids[..|uids|] == uids;
  }

  /** The inner loop, with its set of lines already seen. */
  method AddMember(before: seq<string>, lines: seq<string>) returns (links: seq<string>)
    ensures links == AddedAll(before, lines)
  {
    links := before;
    var seen := set line | line in before;
    for i := 0 to |lines|
      invariant links == AddedAll(before, lines[..i])
      invariant forall line :: line in seen <==> line in links
    {
      assert lines[..i + 1][..i] == lines[..i];
      if lines[i] != "" && lines[i] !in seen {
        seen := seen + {lines[i]};
        links := links + [lines[i]];
      }
    }
    assert lines[..|lines|] == lines;
  }

  /** Where a line appears first. */
  function First(lines: seq<string>, line: string): (k: nat)
    requires line in lines
    ensures k < |lines| && lines[k] == line && line !in lines[..k]
  {
    if lines[0] == line then 0
    else
      assert lines == [lines[0]] + lines[1..];
      var k := First(lines[1..], line);
      assert lines[..k + 1] == [lines[0]] + lines[1..][..k];
      k + 1
  }

  lemma {:induction false} FirstAppend(lines: seq<string>, last: string, line: string)
    requires line in lines
    ensures line in lines + [last] && First(lines + [last], line) == First(lines, line)
  {
    var all := lines + [last];
    assert all[0] == lines[0] && all[First(lines, line)] == line;
    if lines[0] != line {
      assert lines == [lines[0]] + lines[1..];
      assert all[1..] == lines[1..] + [last];
      FirstAppend(lines[1..], last, line);
    }
  }

  lemma {:induction false} FirstNew(lines: seq<string>, last: string)
    requires last !in lines
    ensures last in lines + [last] && First(lines + [last], last) == |lines|
  {
    var all := lines + [last];
    assert all[|lines|] == last;
    if lines != [] {
      assert all[1..] == lines[1..] + [last];
      FirstNew(lines[1..], last);
    }
  }

  /** In the order of first appearance. */
  predicate Ordered(links: seq<string>, lines: seq<string>) {
    && (forall i :: 0 <= i < |links| ==> links[i] in lines)
    && (forall i, j :: 0 <= i < j < |links| ==> First(lines, links[i]) < First(lines, links[j]))
  }

  /** A group's links are the members' links: none is empty or repeated, none is missing, and they
      stand in the order of their first appearance. */
  lemma {:induction false} GroupLinks(lines: seq<string>)
    ensures var links := AddedAll([], lines);
      && Distinct(links)
      && (forall line :: line in links <==> line in lines && line != "")
      && Ordered(links, lines)
  {
    hide First;
    if lines != [] {
      var most, last := lines[..|lines| - 1], lines[|lines| - 1];
      GroupLinks(most);
      assert lines == most + [last];
      var before := AddedAll([], most);
      forall i | 0 <= i < |before|
        ensures before[i] in lines && First(lines, before[i]) == First(most, before[i])
      {
        FirstAppend(most, last, before[i]);
      }
      if last != "" && last !in before {
        FirstNew(most, last);
      }
    }
  }

  /** The user is a published member of the group. */
  predicate Publishes(uids: seq<string>, users: map<string, Member>, m: Member) {
    exists i :: 0 <= i < |uids| && uids[i] in users && users[uids[i]] == m && m.enabled
  }

  lemma {:induction false} UsableMembers(uids: seq<string>, users: map<string, Member>, m: Member)
    ensures m in Usable(uids, users) <==> Publishes(uids, users, m)
  {
    if uids != [] {
      var most := uids[..|uids| - 1];
      UsableMembers(most, users, m);
      assert forall i :: 0 <= i < |most| ==> uids[i] == most[i];
      if Publishes(most, users, m) {
        var i :| 0 <= i < |most| && most[i] in users && users[most[i]] == m && m.enabled;
        assert uids[i] == most[i];
      }
    }
  }

  lemma {:induction false} LinesOf(members: seq<Member>, line: string)
    ensures line in Lines(members) <==> exists m :: m in members && line in m.links
  {
    if members != [] {
      LinesOf(members[..|members| - 1], line);
    }
  }

  function GroupLines(uids: seq<string>, users: map<string, Member>): seq<string> {
    AddedAll([], Lines(Usable(uids, users)))
  }

  function GroupInfo(uids: seq<string>, users: map<string, Member>, includeInfo: bool): seq<string> {
    if includeInfo then Infos(Usable(uids, users)) else []
  }

  lemma AllOneLine(a: seq<string>, b: seq<string>)
    ensures (forall i :: 0 <= i < |a + b| ==> OneLine((a + b)[i])) <==>
      (forall line :: line in a || line in b ==> OneLine(line))
  {
    hide OneLine;
    if forall i :: 0 <= i < |a + b| ==> OneLine((a + b)[i]) {
      forall line | line in a + b
        ensures OneLine(line)
      {
        var i :| 0 <= i < |a + b| && (a + b)[i] == line;
      }
      assert forall line :: line in a || line in b ==> line in a + b;
    } else {
      var i :| 0 <= i < |a + b| && !OneLine((a + b)[i]);
      assert (a + b)[i] in a || (a + b)[i] in b;
    }
  }

  /** What a subscriber of a group reads from its body, exactly when no line runs over: first the info
      lines, then the lines of all existing enabled members and no others, none empty, none repeated
      and in the order in which the members bring them. */
  lemma GroupBody(uids: seq<string>, users: map<string, Member>, includeInfo: bool)
    ensures var links, info := GroupLines(uids, users), GroupInfo(uids, users, includeInfo);
      ReadBody(SubscriptionText(info + links)) == Some(info + links) <==>
      info + links != [] && forall line :: line in info || line in links ==> OneLine(line)
    ensures forall line :: line in GroupLines(uids, users) <==>
      line != "" && exists m :: Publishes(uids, users, m) && line in m.links
    ensures Distinct(GroupLines(uids, users)) && Ordered(GroupLines(uids, users), Lines(Usable(uids, users)))
  {
    hide ReadBody, SubscriptionText, OneLine, Ordered, Publishes, Infos, Lines, Usable, AddedAll;
    var members := Usable(uids, users);
    var links, info := GroupLines(uids, users), GroupInfo(uids, users, includeInfo);
    BodyRoundTrip(info + links);
    AllOneLine(info, links);
    GroupLinks(Lines(members));
    forall line
      ensures line in links <==> line != "" && exists m :: Publishes(uids, users, m) && line in m.links
    {
      LinesOf(members, line);
      forall m
        ensures m in members <==> Publishes(uids, users, m)
      {
        UsableMembers(uids, users, m);
      }
    }
  }

  lemma {:induction false} AddedPrefix(links: seq<string>, lines: seq<string>)
    ensures links <= AddedAll(links, lines)
  {
    if lines != [] {
      AddedPrefix(links, lines[..|lines| - 1]);
    }
  }

  /** Member by member: one more member leaves what the others bring where it is, and puts what is new
      behind it. */
  lemma OneMoreMember(uids: seq<string>, users: map<string, Member>, uid: string, includeInfo: bool)
    ensures var usable, more := uid in users && users[uid].enabled, uids + [uid];
      && GroupLines(uids, users) <= GroupLines(more, users)
      && (!usable ==> GroupLines(more, users) == GroupLines(uids, users))
      && (usable ==> GroupLines(more, users) == AddedAll(GroupLines(uids, users), users[uid].links))
      && GroupInfo(more, users, includeInfo) ==
           GroupInfo(uids, users, includeInfo) + if includeInfo && usable then users[uid].info else []
  {
    hide AddedAll, Usable, Lines, Infos;
    var before := Usable(uids, users);
    UsableNext(uids, users, uid);
    if uid in users && users[uid].enabled {
      LinesNext(before, users[uid]);
      AddedAllAppend([], Lines(before), users[uid].links);
      AddedPrefix(GroupLines(uids, users), users[uid].links);
    }
  }

  lemma UsableNext(uids: seq<string>, users: map<string, Member>, uid: string)
    ensures Usable(uids + [uid], users) ==
      if uid in users && users[uid].enabled then Usable(uids, users) + [users[uid]] else Usable(uids, users)
  {
    assert (uids + [uid])[..|uids|] == uids;
  }

  lemma LinesNext(members: seq<Member>, m: Member)
    ensures Lines(members + [m]) == Lines(members) + m.links && Infos(members + [m]) == Infos(members) + m.info
  {
    assert (members + [m])[..|members|] == members;
  }

  // ---------------------------------------------------------------- expiry

  predicate Expired(m: Member, now: int) {
    m.expireAt != 0 && now >= m.expireAt
  }

  /** The members the documentation of `_group_members` speaks of: existing, enabled, not expired. */
  function Promised(uids: seq<string>, users: map<string, Member>, now: int): seq<Member> {
    if uids == [] then []
    else
      Promised(uids[..|uids| - 1], users, now) +
      var uid := uids[|uids| - 1];
      if uid in users && users[uid].enabled && !Expired(users[uid], now) then [users[uid]] else []
  }

  /** An enabled member of the group is past its time. */
  predicate Overdue(uids: seq<string>, users: map<string, Member>, now: int) {
    exists i :: 0 <= i < |uids| && uids[i] in users && users[uids[i]].enabled && Expired(users[uids[i]], now)
  }

  lemma OverdueNext(uids: seq<string>, users: map<string, Member>, now: int)
    requires uids != []
    ensures var most, uid := uids[..|uids| - 1], uids[|uids| - 1];
      Overdue(uids, users, now) <==>
      Overdue(most, users, now) || (uid in users && users[uid].enabled && Expired(users[uid], now))
  {
    hide Expired;
    var most := uids[..|uids| - 1];
    if Overdue(most, users, now) {
      var i :| 0 <= i < |most| && most[i] in users && users[most[i]].enabled && Expired(users[most[i]], now);
      assert uids[i] == most[i];
    }
    if Overdue(uids, users, now) {
      var i :| 0 <= i < |uids| && uids[i] in users && users[uids[i]].enabled && Expired(users[uids[i]], now);
      assert i < |most| ==> uids[i] == most[i];
    }
  }

  lemma NobodyOverdue(users: map<string, Member>, now: int)
    ensures !Overdue([], users, now)
  {
  }

  lemma {:induction false} UsableCount(uids: seq<string>, users: map<string, Member>, now: int)
    ensures |Promised(uids, users, now)| + (if Overdue(uids, users, now) then 1 else 0) <= |Usable(uids, users)|
    ensures !Overdue(uids, users, now) ==> Promised(uids, users, now) == Usable(uids, users)
  {
    hide Expired, Overdue;
    if uids != [] {
      UsableCount(uids[..|uids| - 1], users, now);
      OverdueNext(uids, users, now);
    } else {
      NobodyOverdue(users, now);
    }
  }

  /** A group publishes the members its documentation speaks of, exactly as long as no enabled
      member is past its time. */
  lemma ExpiryExactly(uids: seq<string>, users: map<string, Member>, now: int)
    ensures Usable(uids, users) == Promised(uids, users, now) <==> !Overdue(uids, users, now)
  {
    hide Usable, Promised, Overdue;
    UsableCount(uids, users, now);
  }

  /** One pass of `_housekeeping` over the users. */
  function Swept(users: map<string, Member>, now: int): map<string, Member> {
    map uid | uid in users ::
      if users[uid].enabled && users[uid].expireAt != 0 && now >= users[uid].expireAt then
        users[uid].(enabled := false)
      else users[uid]
  }

  /** A housekeeping pass makes every group publish what its documentation says, until the next
      member expires. */
  lemma {:induction false} SweepKeepsPromise(uids: seq<string>, users: map<string, Member>, now: int)
    ensures Usable(uids, Swept(users, now)) == Promised(uids, users, now)
    ensures !Overdue(uids, Swept(users, now), now)
  {
    if uids != [] {
      SweepKeepsPromise(uids[..|uids| - 1], users, now);
    }
  }
}
