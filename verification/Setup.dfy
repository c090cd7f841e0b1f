/** The setup of a simulation: credentials from the root to the organisations to the users, delivered in any
    order, and the audit that relies on where the users were put. */
module Setup {
  import opened Arithmetic
  import opened Sums
  import opened Events
  import P = Protocol

  /** The secret keys drawn, and the key derivation; any functions will do. */
  datatype Draw = Draw(rootSk: int, orgSk: nat -> int, userSk: nat -> int, pkOf: int -> int)

  /** One delegation: the key it is for, and the key that signed it. */
  datatype Link = Link(subject: int, signer: int)

  datatype Organization = Organization(id: nat, sk: int, chain: seq<Link>)

  /** The organisation a user counts itself to, and the one that issued its credentials. */
  datatype User = User(id: nat, org: nat, issuer: nat, sk: int, pk: int, chain: seq<Link>)

  function Delegate(d: Draw, chain: seq<Link>, sk: int, pk: int): seq<Link> {
    chain + [Link(pk, d.pkOf(sk))]
  }

  /** The chain starts with the root's signature, every key signs the next link, and the last is the holder's. */
  ghost predicate Verifies(d: Draw, chain: seq<Link>, sk: int) {
    && chain != []
    && chain[0].signer == d.pkOf(d.rootSk)
    && (forall i :: 0 < i < |chain| ==> chain[i].signer == chain[i - 1].subject)
    && chain[|chain| - 1].subject == d.pkOf(sk)
  }

  function MakeOrganization(d: Draw, org: nat): Organization {
    Organization(org, d.orgSk(org), Delegate(d, [], d.rootSk, d.pkOf(d.orgSk(org))))
  }

  function MakeUser(d: Draw, usersPerOrg: nat, organization: Organization, org: nat, user: nat): User {
    var id := org * usersPerOrg + user;
    var pk := d.pkOf(d.userSk(id));
    User(id, org, organization.id, d.userSk(id), pk, Delegate(d, organization.chain, organization.sk, pk))
  }

  /** What issuing one credential records. */
  function Issued(): multiset<Event> {
    multiset{Transfer(Nonce), Transfer(CredRequest), Crypto(CredDelegation), Transfer(Credentials)}
  }

  /** An order in which n goroutines deliver. */
  ghost predicate ArrivalOrder(arrival: seq<nat>, n: nat) {
    |arrival| == n && DistinctBelow(arrival, n)
  }

  lemma EveryoneArrives(arrival: seq<nat>, n: nat, k: nat)
    requires ArrivalOrder(arrival, n) && k < n
    ensures k in arrival
  {
    LogBound(arrival, n);
  }

  /** Organisations are appended as they arrive. */
  method GenerateOrganizations(d: Draw, orgs: nat, arrival: seq<nat>)
    returns (organizations: seq<Organization>, events: multiset<Event>)
    requires ArrivalOrder(arrival, orgs)
    ensures |organizations| == orgs
    ensures forall i :: 0 <= i < orgs ==> organizations[i] == MakeOrganization(d, arrival[i])
    ensures events == P.SetupEvents(orgs)
  {
    var spawned: seq<Organization> := [];
    events := P.SetupEvents(0);
    for org := 0 to orgs
      invariant |spawned| == org
      invariant forall k :: 0 <= k < org ==> spawned[k] == MakeOrganization(d, k)
      invariant events == P.SetupEvents(org)
    {
      OneMore(org);
      spawned := spawned + [MakeOrganization(d, org)];
      events := events + Issued();
    }
    organizations := [];
    for i := 0 to |arrival|
      invariant |organizations| == i
      invariant forall k :: 0 <= k < i ==> organizations[k] == MakeOrganization(d, arrival[k])
    {
      organizations := organizations + [spawned[arrival[i]]];
    }
  }

  /** The user with this id, whatever the order of arrival. */
  function UserAt(d: Draw, usersPerOrg: nat, organizations: seq<Organization>, id: nat): User
    requires id < |organizations| * usersPerOrg
  {
    DivisionBelow(id, |organizations|, usersPerOrg);
    MakeUser(d, usersPerOrg, organizations[id / usersPerOrg], id / usersPerOrg, id % usersPerOrg)
  }

  lemma OneMore(members: nat)
    ensures P.SetupEvents(members) + Issued() == P.SetupEvents(members + 1)
  {
  }

  lemma NextUser(d: Draw, usersPerOrg: nat, organizations: seq<Organization>, org: nat, user: nat)
    requires org < |organizations| && user < usersPerOrg
    ensures var id := org * usersPerOrg + user;
      && id < |organizations| * usersPerOrg
      && UserAt(d, usersPerOrg, organizations, id) == MakeUser(d, usersPerOrg, organizations[org], org, user)
  {
    NextMultiple(org, |organizations|, usersPerOrg);
    Euclid(org * usersPerOrg + user, org, user, usersPerOrg);
  }

  /** One goroutine per organisation and position, started in this order. */
  method SpawnUsers(d: Draw, usersPerOrg: nat, organizations: seq<Organization>)
    returns (spawned: seq<User>, events: multiset<Event>)
    ensures |spawned| == |organizations| * usersPerOrg
    ensures forall id :: 0 <= id < |spawned| ==> spawned[id] == UserAt(d, usersPerOrg, organizations, id)
    ensures events == P.SetupEvents(|spawned|)
  {
    spawned, events := [], P.SetupEvents(0);
    for org := 0 to |organizations|
      invariant |spawned| == org * usersPerOrg <= |organizations| * usersPerOrg
      invariant forall id :: 0 <= id < |spawned| ==> spawned[id] == UserAt(d, usersPerOrg, organizations, id)
      invariant events == P.SetupEvents(|spawned|)
    {
      ghost var first := |spawned|;
      NextMultiple(org, |organizations|, usersPerOrg);
      for user := 0 to usersPerOrg
        invariant |spawned| == first + user <= |organizations| * usersPerOrg
        invariant forall id :: 0 <= id < |spawned| ==> spawned[id] == UserAt(d, usersPerOrg, organizations, id)
        invariant events == P.SetupEvents(|spawned|)
      {
        NextUser(d, usersPerOrg, organizations, org, user);
        OneMore(|spawned|);
        spawned := spawned + [MakeUser(d, usersPerOrg, organizations[org], org, user)];
        events := events + Issued();
      }
      assert |spawned| == (org + 1) * usersPerOrg;
    }
  }

  /** Users are stored by id: the result does not depend on the order in which they arrive. */
  method PlaceUsers(spawned: seq<User>, arrival: seq<nat>) returns (users: array<User>)
    requires forall id :: 0 <= id < |spawned| ==> spawned[id].id == id
    requires ArrivalOrder(arrival, |spawned|)
    ensures fresh(users) && users[..] == spawned
  {
    users := new User[|spawned|];
    for i := 0 to |arrival|
      invariant forall k :: 0 <= k < i ==> users[arrival[k]] == spawned[arrival[k]]
    {
      var user := spawned[arrival[i]];
      users[user.id] := user;
    }
    forall id | 0 <= id < |spawned| ensures users[id] == spawned[id] {
      EveryoneArrives(arrival, |spawned|, id);
    }
  }

  /** The users of a simulation, whatever the order of arrival. */
  method GenerateUsers(d: Draw, usersPerOrg: nat, organizations: seq<Organization>, arrival: seq<nat>)
    returns (users: array<User>, events: multiset<Event>)
    requires ArrivalOrder(arrival, |organizations| * usersPerOrg)
    ensures fresh(users) && users.Length == |organizations| * usersPerOrg
    ensures forall id :: 0 <= id < users.Length ==>
              users[id] == UserAt(d, usersPerOrg, organizations, id) && users[id].id == id
    ensures forall id :: 0 <= id < users.Length ==>
              users[id].sk == d.userSk(id) && users[id].pk == d.pkOf(d.userSk(id))
    ensures events == P.SetupEvents(|organizations| * usersPerOrg)
  {
    var spawned;
    spawned, events := SpawnUsers(d, usersPerOrg, organizations);
    forall id | 0 <= id < |spawned|
      ensures spawned[id].id == id && spawned[id].sk == d.userSk(id) && spawned[id].pk == d.pkOf(d.userSk(id))
    {
      UserAtId(d, usersPerOrg, organizations, id);
    }
    users := PlaceUsers(spawned, arrival);
    assert forall id :: 0 <= id < users.Length ==> users[..][id] == users[id];
  }

  lemma UserAtId(d: Draw, usersPerOrg: nat, organizations: seq<Organization>, id: nat)
    requires id < |organizations| * usersPerOrg
    ensures var u := UserAt(d, usersPerOrg, organizations, id);
      u.id == id && u.sk == d.userSk(id) && u.pk == d.pkOf(d.userSk(id))
  {
    DivisionBelow(id, |organizations|, usersPerOrg);
  }

  /** Numbering the users by organisation and position is a bijection. */
  lemma NumberingIsBijective(orgs: nat, usersPerOrg: nat, org: nat, user: nat, id: nat)
    requires org < orgs && user < usersPerOrg && id < orgs * usersPerOrg
    ensures org * usersPerOrg + user < orgs * usersPerOrg
    ensures id / usersPerOrg < orgs && id % usersPerOrg < usersPerOrg
    ensures org * usersPerOrg + user == id <==> org == id / usersPerOrg && user == id % usersPerOrg
  {
    NextMultiple(org, orgs, usersPerOrg);
    DivisionBelow(id, orgs, usersPerOrg);
    Euclid(org * usersPerOrg + user, org, user, usersPerOrg);
  }

  /** The organisations that the setup leaves, in some order of arrival. */
  ghost predicate Arrived(d: Draw, organizations: seq<Organization>, arrival: seq<nat>) {
    && ArrivalOrder(arrival, |organizations|)
    && forall i :: 0 <= i < |organizations| ==> organizations[i] == MakeOrganization(d, arrival[i])
  }

  /** In whatever order organisations arrive, a user's chain goes from the root over one organisation to the
      user, and verifies. */
  lemma ChainsVerify(d: Draw, usersPerOrg: nat, organizations: seq<Organization>, arrival: seq<nat>, id: nat)
    requires Arrived(d, organizations, arrival) && id < |organizations| * usersPerOrg
    ensures var u := UserAt(d, usersPerOrg, organizations, id);
      && u.issuer < |organizations|
      && u.chain == [Link(d.pkOf(d.orgSk(u.issuer)), d.pkOf(d.rootSk)),
                     Link(d.pkOf(d.userSk(id)), d.pkOf(d.orgSk(u.issuer)))]
      && Verifies(d, u.chain, u.sk)
  {
    UserAtId(d, usersPerOrg, organizations, id);
    DivisionBelow(id, |organizations|, usersPerOrg);
    var o := organizations[id / usersPerOrg];
    assert o == MakeOrganization(d, arrival[id / usersPerOrg]);
    assert o.chain == [Link(d.pkOf(o.sk), d.pkOf(d.rootSk))];
  }

  /** Every user was issued its credentials by the organisation it counts itself to exactly when the
      organisations happened to arrive in the order of their numbers. */
  lemma IssuerMatchesIff(d: Draw, usersPerOrg: nat, organizations: seq<Organization>, arrival: seq<nat>)
    requires Arrived(d, organizations, arrival) && usersPerOrg > 0
    ensures
      (forall id :: 0 <= id < |organizations| * usersPerOrg ==>
        var u := UserAt(d, usersPerOrg, organizations, id); u.issuer == u.org)
      <==> (forall k :: 0 <= k < |arrival| ==> arrival[k] == k)
  {
    if forall k :: 0 <= k < |arrival| ==> arrival[k] == k {
      forall id | 0 <= id < |organizations| * usersPerOrg
        ensures var u := UserAt(d, usersPerOrg, organizations, id); u.issuer == u.org
      {
        DivisionBelow(id, |organizations|, usersPerOrg);
      }
    } else {
      var k :| 0 <= k < |arrival| && arrival[k] != k;
      NextMultiple(k, |organizations|, usersPerOrg);
      Euclid(k * usersPerOrg, k, 0, usersPerOrg);
      var u := UserAt(d, usersPerOrg, organizations, k * usersPerOrg);
      assert u.issuer == arrival[k] && u.org == k;
    }
  }

  lemma SetupEventsAdd(orgs: nat, users: nat)
    ensures P.SetupEvents(orgs) + P.SetupEvents(users) == P.SetupEvents(orgs + users)
  {
    forall e ensures (P.SetupEvents(orgs) + P.SetupEvents(users))[e] == P.SetupEvents(orgs + users)[e] {}
  }

  /** The whole setup, organisations first: every user at its own id, and exactly the events recorded with which
      a simulation starts. */
  method MakeNetwork(c: P.Config, d: Draw, orgArrival: seq<nat>, userArrival: seq<nat>)
    returns (organizations: seq<Organization>, users: array<User>, events: multiset<Event>)
    requires P.Valid(c) && ArrivalOrder(orgArrival, c.orgs) && ArrivalOrder(userArrival, c.users)
    ensures Arrived(d, organizations, orgArrival) && |organizations| == c.orgs
    ensures fresh(users) && users.Length == c.users == |organizations| * c.usersPerOrg
    ensures forall id :: 0 <= id < users.Length ==>
              users[id] == UserAt(d, c.usersPerOrg, organizations, id) && users[id].id == id
    ensures forall id :: 0 <= id < users.Length ==>
              users[id].sk == d.userSk(id) && users[id].pk == d.pkOf(d.userSk(id))
    ensures events == P.Init(c).events
  {
    var orgEvents, userEvents;
    organizations, orgEvents := GenerateOrganizations(d, c.orgs, orgArrival);
    users, userEvents := GenerateUsers(d, c.usersPerOrg, organizations, userArrival);
    SetupEventsAdd(c.orgs, c.users);
    events := orgEvents + userEvents;
  }

  /** Two organisations that arrive in opposite order leave the only user of each with the credentials of the
      other. */
  lemma IssuersCanSwap(d: Draw)
    ensures var organizations := [MakeOrganization(d, 1), MakeOrganization(d, 0)];
      && Arrived(d, organizations, [1, 0])
      && UserAt(d, 1, organizations, 0).org == 0 && UserAt(d, 1, organizations, 0).issuer == 1
      && UserAt(d, 1, organizations, 1).org == 1 && UserAt(d, 1, organizations, 1).issuer == 0
  {
    Euclid(0, 0, 0, 1);
    Euclid(1, 1, 0, 1);
  }

  // ---- the audit

  /** What the audit looks at; the encryption is of the author's key. */
  datatype Recorded = Recorded(authorId: nat, auditEnc: int)

  datatype Auditor = Auditor(encrypt: (int, int) -> int, decrypt: int -> int)

  ghost predicate Decrypts(a: Auditor) {
    forall pk, r :: a.decrypt(a.encrypt(pk, r)) == pk
  }

  /** A transaction of one of these users, with the user's id and key as submitTransaction puts them in. */
  ghost predicate Authored(a: Auditor, users: seq<User>, tx: Recorded) {
    exists k, r :: 0 <= k < |users| && tx == Recorded(users[k].id, a.encrypt(users[k].pk, r))
  }

  /** The audit goes over all transactions and panics at the first whose key does not match. */
  method RunAudit(a: Auditor, users: array<User>, transactions: seq<Recorded>) returns (ok: bool)
    requires forall i :: 0 <= i < |transactions| ==> transactions[i].authorId < users.Length
    ensures ok <==> forall i :: 0 <= i < |transactions| ==>
                      a.decrypt(transactions[i].auditEnc) == users[transactions[i].authorId].pk
  {
    for i := 0 to |transactions|
      invariant forall j :: 0 <= j < i ==>
                  a.decrypt(transactions[j].auditEnc) == users[transactions[j].authorId].pk
    {
      if a.decrypt(transactions[i].auditEnc) != users[transactions[i].authorId].pk {
        return false;
      }
    }
    return true;
  }

  /** Because users are stored by id, every transaction opens to the key of the user its author id names:
      the audit succeeds on whatever the users submit. */
  lemma AuditSucceeds(d: Draw, usersPerOrg: nat, organizations: seq<Organization>, a: Auditor,
                      users: seq<User>, tx: Recorded)
    requires Decrypts(a) && |users| == |organizations| * usersPerOrg
    requires forall id :: 0 <= id < |users| ==> users[id] == UserAt(d, usersPerOrg, organizations, id)
    requires Authored(a, users, tx)
    ensures tx.authorId < |users| && a.decrypt(tx.auditEnc) == users[tx.authorId].pk
  {
    var k, r :| 0 <= k < |users| && tx == Recorded(users[k].id, a.encrypt(users[k].pk, r));
    UserAtId(d, usersPerOrg, organizations, k);
  }

  /** And on nothing else: whoever encrypted it, a transaction passes if and only if its encryption is of the key
      derived from the secret key of the user that it names. */
  lemma AuditPassesIff(d: Draw, usersPerOrg: nat, organizations: seq<Organization>, a: Auditor,
                       users: seq<User>, author: nat, pk: int, r: int)
    requires Decrypts(a) && |users| == |organizations| * usersPerOrg && author < |users|
    requires forall id :: 0 <= id < |users| ==> users[id] == UserAt(d, usersPerOrg, organizations, id)
    ensures var tx := Recorded(author, a.encrypt(pk, r));
      a.decrypt(tx.auditEnc) == users[tx.authorId].pk <==> pk == d.pkOf(d.userSk(author))
  {
    UserAtId(d, usersPerOrg, organizations, author);
  }
}
