/**
  The direct-showroom repository: the `direct_showrooms` table, keyed by
  push id, and the showroom back-reference fields (`showroom_id`,
  `showroom_name`, `showroom_code`) it keeps on the `users` table for each
  showroom's manager. Creation and update check that the code is not
  already taken; deletion is soft.
 */
module Showrooms {
  import opened Js
  import Sorting

  /** A record of `direct_showrooms`. `createdAt` is None for a record without `created_at`. */
  datatype Showroom = Showroom(
    name: string, code: string, location: string, city: string,
    contactNumber: string, email: string, managerId: Option<string>, status: string,
    openingHours: seq<(string, string)>, targetSales: real, metadata: Value,
    createdAt: Option<int>, updatedAt: int, createdBy: string)

  /** The showroom fields of a user node; a field written as null is absent (None). */
  datatype User = User(showroomId: Option<nat>, showroomName: Option<string>, showroomCode: Option<string>)

  datatype ShowroomError = NotAuthenticated | CodeExists | NotFound

  /** One write issued to the database, in order. */
  datatype Write = ShowroomWrite(id: nat, showroom: Showroom) | UserWrite(uid: string, user: User)

  /** `manager_id` is truthy. */
  predicate HasManager(s: Showroom)
  {
    s.managerId.Some? && s.managerId.value != ""
  }

  /** `created_at || 0`. */
  function CreatedKey(s: Showroom): int
  {
    if s.createdAt.Some? then s.createdAt.value else 0
  }

  const DefaultOpeningHours: seq<(string, string)> :=
    [ ("monday", "9:00-18:00"), ("tuesday", "9:00-18:00"), ("wednesday", "9:00-18:00"),
      ("thursday", "9:00-18:00"), ("friday", "9:00-18:00"), ("saturday", "9:00-18:00"),
      ("sunday", "closed") ]

  /**
    The form data of a new showroom. An empty string stands for a missing
    or empty field; `openingHours` and `metadata` are None when missing.
   */
  datatype NewShowroom = NewShowroom(
    name: string, code: string, location: string, city: string,
    contactNumber: string, email: string, managerId: string, status: string,
    openingHours: Option<seq<(string, string)>>, targetSales: real, metadata: Option<Value>)

  /** The record `createShowroom` stores: the code uppercased and the defaults applied. */
  function Created(d: NewShowroom, uid: string, now: int): (s: Showroom)
    ensures s.code == Upper(d.code)
    ensures s.status == (if d.status == "" then "active" else d.status)
    ensures s.managerId == (if d.managerId == "" then None else Some(d.managerId))
    ensures HasManager(s) <==> d.managerId != ""
    ensures s.openingHours == (if d.openingHours.Some? then d.openingHours.value else DefaultOpeningHours)
    ensures s.metadata == (if d.metadata.Some? then d.metadata.value else Obj([]))
    ensures s.targetSales == d.targetSales && s.contactNumber == d.contactNumber && s.email == d.email
    ensures s.name == d.name && s.location == d.location && s.city == d.city
    ensures s.createdAt == Some(now) && s.updatedAt == now && s.createdBy == uid
  {
    Showroom(
      d.name, Upper(d.code), d.location, d.city, d.contactNumber, d.email,
      if d.managerId != "" then Some(d.managerId) else None,
      if d.status != "" then d.status else "active",
      if d.openingHours.Some? then d.openingHours.value else DefaultOpeningHours,
      d.targetSales,
      if d.metadata.Some? then d.metadata.value else Obj([]),
      Some(now), now, uid)
  }

  /** The fields an update carries; None is a field absent from `updates`. */
  datatype Changes = Changes(
    name: Option<string>, code: Option<string>, location: Option<string>, city: Option<string>,
    contactNumber: Option<string>, email: Option<string>, managerId: Option<string>, status: Option<string>,
    openingHours: Option<seq<(string, string)>>, targetSales: Option<real>, metadata: Option<Value>)

  function Pick<T>(o: Option<T>, current: T): T
  {
    if o.Some? then o.value else current
  }

  /** The record after `update(direct_showrooms/{id}, {...updates, updated_at})`. */
  function Updated(s: Showroom, c: Changes, now: int): (r: Showroom)
    ensures r.code == (if c.code.Some? then c.code.value else s.code)
    ensures r.managerId == (if c.managerId.Some? then c.managerId else s.managerId)
    ensures r.name == (if c.name.Some? then c.name.value else s.name)
    ensures r.status == (if c.status.Some? then c.status.value else s.status)
    ensures r.location == (if c.location.Some? then c.location.value else s.location)
    ensures r.city == (if c.city.Some? then c.city.value else s.city)
    ensures r.contactNumber == (if c.contactNumber.Some? then c.contactNumber.value else s.contactNumber)
    ensures r.email == (if c.email.Some? then c.email.value else s.email)
    ensures r.openingHours == (if c.openingHours.Some? then c.openingHours.value else s.openingHours)
    ensures r.targetSales == (if c.targetSales.Some? then c.targetSales.value else s.targetSales)
    ensures r.metadata == (if c.metadata.Some? then c.metadata.value else s.metadata)
    ensures r.createdAt == s.createdAt && r.createdBy == s.createdBy && r.updatedAt == now
  {
    Showroom(
      Pick(c.name, s.name), Pick(c.code, s.code), Pick(c.location, s.location), Pick(c.city, s.city),
      Pick(c.contactNumber, s.contactNumber), Pick(c.email, s.email),
      if c.managerId.Some? then c.managerId else s.managerId,
      Pick(c.status, s.status), Pick(c.openingHours, s.openingHours), Pick(c.targetSales, s.targetSales),
      Pick(c.metadata, s.metadata), s.createdAt, now, s.createdBy)
  }

  /** An update that carries no field only refreshes `updated_at`. */
  lemma EmptyUpdateOnlyStamps(s: Showroom, now: int)
    ensures Updated(s, Changes(None, None, None, None, None, None, None, None, None, None, None), now)
            == s.(updatedAt := now)
  {
  }

  const Cleared: User := User(None, None, None)

  function PointTo(id: nat, name: string, code: string): User
  {
    User(Some(id), Some(name), Some(code))
  }

  /** `find(s => s.code === code)`: the first entry with exactly this code. */
  function FirstWithCode(entries: seq<(nat, Showroom)>, code: string): (r: Option<(nat, Showroom)>)
    ensures r.None? <==> forall i :: 0 <= i < |entries| ==> entries[i].1.code != code
    ensures r.Some? ==> exists i :: 0 <= i < |entries| && entries[i] == r.value && r.value.1.code == code
                         && forall j :: 0 <= j < i ==> entries[j].1.code != code
  {
    if entries == [] then None
    else if entries[0].1.code == code then Some(entries[0])
    else
      var r := FirstWithCode(entries[1..], code);
      assert forall i :: 0 < i < |entries| ==> entries[i] == entries[1..][i - 1];
      if r.Some? then
        var k :| 0 <= k < |entries[1..]| && entries[1..][k] == r.value && r.value.1.code == code
                 && forall j :: 0 <= j < k ==> entries[1..][j].1.code != code;
        assert entries[k + 1] == r.value;
        r
      else r
  }

  /** The entries whose status is 'active', in order. */
  function ActiveOnly(entries: seq<(nat, Showroom)>): (r: seq<(nat, Showroom)>)
    ensures |r| <= |entries|
    ensures forall e :: e in r <==> e in entries && e.1.status == "active"
  {
    if entries == [] then []
    else
      var rest := ActiveOnly(entries[1..]);
      assert forall e :: e in entries <==> e == entries[0] || e in entries[1..];
      if entries[0].1.status == "active" then [entries[0]] + rest else rest
  }
  /** Filtering keeps order: the active entries of `a + b` are those of `a`, then those of `b`. */
  lemma {:induction false} ActiveOnlyAppend(a: seq<(nat, Showroom)>, b: seq<(nat, Showroom)>)
    ensures ActiveOnly(a + b) == ActiveOnly(a) + ActiveOnly(b)
  {
    if a == [] {
      assert a + b == b;
    } else {
      assert (a + b)[0] == a[0] && (a + b)[1..] == a[1..] + b;
      ActiveOnlyAppend(a[1..], b);
    }
  }


  /** The user writes of `updateShowroom` for showroom `id`: clear the old manager, then point the new one here. */
  function ManagerWrites(id: nat, existing: Showroom, c: Changes): (ws: seq<(string, User)>)
    ensures |ws| <= 2
    ensures HasManager(existing) && existing.managerId != c.managerId
            <==> |ws| > 0 && ws[0].1 == Cleared && existing.managerId == Some(ws[0].0)
    ensures c.managerId.Some? && c.managerId.value != ""
            <==> |ws| > 0 && ws[|ws| - 1].1 != Cleared && c.managerId == Some(ws[|ws| - 1].0)
  {
    var oldManager := existing.managerId;
    var newManager := c.managerId;
    (if oldManager.Some? && oldManager.value != "" && oldManager != newManager then [(oldManager.value, Cleared)] else [])
    + (if newManager.Some? && newManager.value != ""
       then [(newManager.value,
              PointTo(id,
                      if c.name.Some? && c.name.value != "" then c.name.value else existing.name,
                      if c.code.Some? && c.code.value != "" then c.code.value else existing.code))]
       else [])
  }

  /** The users table after the updates `ws`, in order. */
  function ApplyUsers(users: map<string, User>, ws: seq<(string, User)>): (r: map<string, User>)
    ensures forall uid :: uid in users ==> uid in r
    ensures forall i :: 0 <= i < |ws| ==> ws[i].0 in r
    decreases |ws|
  {
    if ws == [] then users else ApplyUsers(users[ws[0].0 := ws[0].1], ws[1..])
  }

  lemma ApplyOne(users: map<string, User>, a: (string, User))
    ensures ApplyUsers(users, [a]) == users[a.0 := a.1]
  {
    assert [a][1..] == [];
  }

  lemma ApplyTwo(users: map<string, User>, a: (string, User), b: (string, User))
    ensures ApplyUsers(users, [a, b]) == users[a.0 := a.1][b.0 := b.1]
  {
    assert [a, b][1..] == [b];
    ApplyOne(users[a.0 := a.1], b);
  }

  function AsWrites(ws: seq<(string, User)>): (r: seq<Write>)
    ensures |r| == |ws|
    ensures forall i :: 0 <= i < |ws| ==> r[i] == UserWrite(ws[i].0, ws[i].1)
  {
    seq(|ws|, i requires 0 <= i < |ws| => UserWrite(ws[i].0, ws[i].1))
  }

  /**
    When the manager changes to another user, the old manager's
    back-reference is cleared and the new manager's points to this showroom.
   */
  lemma ManagerMoves(users: map<string, User>, id: nat, existing: Showroom, c: Changes, uid: string)
    requires HasManager(existing) && c.managerId.Some? && c.managerId.value != ""
    requires existing.managerId != c.managerId
    ensures var after := ApplyUsers(users, ManagerWrites(id, existing, c));
      && after[existing.managerId.value] == Cleared
      && after[c.managerId.value].showroomId == Some(id)
      && after[c.managerId.value].showroomName == Some(if c.name.Some? && c.name.value != "" then c.name.value else existing.name)
      && after[c.managerId.value].showroomCode == Some(if c.code.Some? && c.code.value != "" then c.code.value else existing.code)
      && (uid != existing.managerId.value && uid != c.managerId.value ==>
            (uid in after <==> uid in users) && (uid in users ==> after[uid] == users[uid]))
  {
    var ws := ManagerWrites(id, existing, c);
    assert ws == [ws[0], ws[1]];
    ApplyTwo(users, ws[0], ws[1]);
  }

  /** Keeping the same manager only refreshes its back-reference; nothing is cleared. */
  lemma SameManagerRefreshed(users: map<string, User>, id: nat, existing: Showroom, c: Changes)
    requires HasManager(existing) && c.managerId == existing.managerId
    ensures ApplyUsers(users, ManagerWrites(id, existing, c))
            == users[existing.managerId.value := PointTo(id,
                 if c.name.Some? && c.name.value != "" then c.name.value else existing.name,
                 if c.code.Some? && c.code.value != "" then c.code.value else existing.code)]
  {
    var ws := ManagerWrites(id, existing, c);
    assert ws == [ws[0]];
    ApplyOne(users, ws[0]);
  }

  /**
    An update that does not mention `manager_id` clears the current
    manager's back-reference although the showroom keeps its manager.
   */
  lemma UpdateWithoutManagerClearsBackReference(users: map<string, User>, id: nat, existing: Showroom, c: Changes)
    requires HasManager(existing) && c.managerId.None?
    ensures var after := ApplyUsers(users, ManagerWrites(id, existing, c));
      after[existing.managerId.value] == Cleared
      && Updated(existing, c, 0).managerId == existing.managerId
  {
    var ws := ManagerWrites(id, existing, c);
    assert ws == [(existing.managerId.value, Cleared)];
    ApplyOne(users, ws[0]);
  }

  /** The push order lists every stored id once, and every id is below the next push key. */
  ghost predicate TableOk(order: seq<nat>, showrooms: map<nat, Showroom>, nextId: nat)
  {
    && (forall i, j :: 0 <= i < j < |order| ==> order[i] != order[j])
    && (forall i :: 0 <= i < |order| ==> order[i] in showrooms && order[i] < nextId)
    && (forall id :: id in showrooms ==> id in order)
  }

  lemma PushKeepsTable(order: seq<nat>, showrooms: map<nat, Showroom>, nextId: nat, s: Showroom)
    requires TableOk(order, showrooms, nextId)
    ensures TableOk(order + [nextId], showrooms[nextId := s], nextId + 1)
  {
  }

  lemma ReplaceKeepsTable(order: seq<nat>, showrooms: map<nat, Showroom>, nextId: nat, id: nat, s: Showroom)
    requires TableOk(order, showrooms, nextId) && id in showrooms
    ensures TableOk(order, showrooms[id := s], nextId)
  {
  }

  /**
    The table as `getAllShowrooms` sees it and the services around it: the
    showrooms (push order in `order`), the users' back-references, the log of
    writes issued and the push-key generator.
   */
  class ShowroomRepo {
    var order: seq<nat>
    var showrooms: map<nat, Showroom>
    var users: map<string, User>
    var writes: seq<Write>
    var nextId: nat

    ghost predicate Valid()
      reads this
    {
      TableOk(order, showrooms, nextId)
    }

    constructor (initial: seq<Showroom>, users: map<string, User>)
      ensures Valid()
      ensures order == seq(|initial|, i requires 0 <= i < |initial| => i)
      ensures showrooms == map i | 0 <= i < |initial| :: initial[i]
      ensures this.users == users && writes == [] && nextId == |initial|
    {
      order := seq(|initial|, i requires 0 <= i < |initial| => i);
      showrooms := map i | 0 <= i < |initial| :: initial[i];
      new;
      assert forall id :: id in showrooms ==> order[id] == id;
      this.users := users;
      writes := [];
      nextId := |initial|;
    }

    /** `Object.entries(direct_showrooms)`, each tagged with its id. */
    function Entries(): (r: seq<(nat, Showroom)>)
      reads this
      requires Valid()
      ensures |r| == |order|
      ensures forall i :: 0 <= i < |order| ==> r[i] == (order[i], showrooms[order[i]])
    {
      seq(|order|, i requires 0 <= i < |order| && Valid() reads this => (order[i], showrooms[order[i]]))
    }

    /** `getAllShowrooms`: every showroom, newest `created_at` first (stable, missing counts as 0). */
    function All(): (r: seq<(nat, Showroom)>)
      reads this
      requires Valid()
      ensures multiset(r) == multiset(Entries())
      ensures forall i, j :: 0 <= i < j < |r| ==> CreatedKey(r[i].1) >= CreatedKey(r[j].1)
    {
      var key := (e: (nat, Showroom)) => -CreatedKey(e.1);
      var r := Sorting.SortBy(Entries(), key);
      assert forall i, j :: 0 <= i < j < |r| ==> key(r[i]) <= key(r[j]);
      r
    }

    /** Each showroom appears in the listing exactly when it is stored. */
    lemma AllListsEveryShowroom(id: nat)
      requires Valid()
      ensures id in showrooms ==> (id, showrooms[id]) in All()
      ensures forall e :: e in All() ==> e.0 in showrooms && e.1 == showrooms[e.0]
    {
      var es := Entries();
      var all := All();
      assert forall e :: e in all <==> e in es by {
        forall e ensures e in all <==> e in es {
          assert e in all <==> e in multiset(all);
          assert e in es <==> e in multiset(es);
        }
      }
      if id in showrooms {
        var i :| 0 <= i < |order| && order[i] == id;
        assert es[i] in all;
      }
    }

    /** `getActiveShowrooms`. */
    function Active(): (r: seq<(nat, Showroom)>)
      reads this
      requires Valid()
      ensures forall e :: e in r <==> e in All() && e.1.status == "active"
    {
      ActiveOnly(All())
    }

    /** `getShowroomByCode(code)`: the first showroom of the listing with exactly this code. */
    function ByCode(code: string): (r: Option<(nat, Showroom)>)
      reads this
      requires Valid()
      ensures r.None? <==> forall e :: e in All() ==> e.1.code != code
      ensures r.Some? ==> r.value in All() && r.value.1.code == code
    {
      FirstWithCode(All(), code)
    }

    /** `getShowroomStaff(id)`: the users whose `showroom_id` is `id`. */
    function Staff(id: nat): (r: set<string>)
      reads this
      ensures forall uid :: uid in r <==> uid in users && users[uid].showroomId == Some(id)
    {
      set uid | uid in users && users[uid].showroomId == Some(id)
    }

    /** The update's code check: a truthy new code, different from the current one, found on another showroom. */
    predicate CodeClash(id: nat, existing: Showroom, c: Changes)
      reads this
      requires Valid()
    {
      && c.code.Some? && c.code.value != "" && c.code.value != existing.code
      && var found := ByCode(c.code.value);
         found.Some? && found.value.0 != id
    }

    /**
      The check's comparison of ids never decides anything: any showroom
      found with the new code is another showroom.
     */
    lemma CodeClashIsAnyOther(id: nat, c: Changes)
      requires Valid() && id in showrooms
      ensures var existing := showrooms[id];
        CodeClash(id, existing, c)
        <==> c.code.Some? && c.code.value != "" && c.code.value != existing.code
             && exists other :: other in showrooms && showrooms[other].code == c.code.value
    {
      var existing := showrooms[id];
      if c.code.Some? && c.code.value != "" && c.code.value != existing.code {
        AllListsEveryShowroom(id);
        if exists other :: other in showrooms && showrooms[other].code == c.code.value {
          var other :| other in showrooms && showrooms[other].code == c.code.value;
          AllListsEveryShowroom(other);
          var e :| e in All() && e.0 == other;
          assert ByCode(c.code.value).Some?;
        }
        if ByCode(c.code.value).Some? {
          var f := ByCode(c.code.value).value;
          assert f in All();
        }
      }
    }

    /**
      `createShowroom`: refused without a signed-in user or when a showroom
      has exactly the given code; otherwise the record is pushed and the
      manager, if any, pointed at it.
     */
    method Create(d: NewShowroom, currentUser: Option<string>, now: int) returns (r: Result<nat, ShowroomError>)
      requires Valid()
      modifies this
      ensures Valid()
      ensures currentUser.None? ==> r == Err(NotAuthenticated)
      ensures currentUser.Some? ==> (r == Err(CodeExists) <==> old(ByCode(d.code)).Some?)
      ensures r.Err? ==> unchanged(this)
      ensures r.Ok? ==>
        && currentUser.Some? && r.value == old(nextId) && nextId == old(nextId) + 1
        && order == old(order) + [r.value]
        && showrooms == old(showrooms)[r.value := Created(d, currentUser.value, now)]
        && users == (if d.managerId != "" then old(users)[d.managerId := PointTo(r.value, d.name, Upper(d.code))]
                     else old(users))
        && writes == old(writes) + [ShowroomWrite(r.value, Created(d, currentUser.value, now))]
                     + (if d.managerId != "" then [UserWrite(d.managerId, PointTo(r.value, d.name, Upper(d.code)))] else [])
      ensures r.Ok? && d.managerId != "" ==> d.managerId in Staff(r.value)
    {
      if currentUser.None? {
        return Err(NotAuthenticated);
      }
      var existing := ByCode(d.code);
      if existing.Some? {
        return Err(CodeExists);
      }
      var id := Push(d, currentUser.value, now);
      r := Ok(id);
    }

    /** The writes of a permitted creation: push the record, then point the manager, if any, at it. */
    method Push(d: NewShowroom, uid: string, now: int) returns (id: nat)
      requires Valid()
      modifies this
      ensures Valid()
      ensures id == old(nextId) && nextId == old(nextId) + 1
      ensures order == old(order) + [id] && showrooms == old(showrooms)[id := Created(d, uid, now)]
      ensures users == (if d.managerId != "" then old(users)[d.managerId := PointTo(id, d.name, Upper(d.code))]
                        else old(users))
      ensures writes == old(writes) + [ShowroomWrite(id, Created(d, uid, now))]
                        + (if d.managerId != "" then [UserWrite(d.managerId, PointTo(id, d.name, Upper(d.code)))] else [])
    {
      var s := Created(d, uid, now);
      PushKeepsTable(order, showrooms, nextId, s);
      id := nextId;
      nextId := nextId + 1;
      showrooms := showrooms[id := s];
      order := order + [id];
      if HasManager(s) {
        var u := PointTo(id, s.name, s.code);
        users := users[s.managerId.value := u];
        writes := writes + [ShowroomWrite(id, s), UserWrite(s.managerId.value, u)];
      } else {
        writes := writes + [ShowroomWrite(id, s)];
      }
    }

    /** The back-reference writes of `updateShowroom` for showroom `id`, whose record was `existing`. */
    method ReassignManager(id: nat, existing: Showroom, c: Changes)
      modifies this
      ensures users == ApplyUsers(old(users), ManagerWrites(id, existing, c))
      ensures writes == old(writes) + AsWrites(ManagerWrites(id, existing, c))
      ensures order == old(order) && showrooms == old(showrooms) && nextId == old(nextId)
    {
      var oldManager := existing.managerId;
      var newManager := c.managerId;
      ghost var users0 := users;
      ghost var ws: seq<(string, User)> := [];
      if oldManager.Some? && oldManager.value != "" && oldManager != newManager {
        users := users[oldManager.value := Cleared];
        writes := writes + [UserWrite(oldManager.value, Cleared)];
        ws := [(oldManager.value, Cleared)];
      }
      if newManager.Some? && newManager.value != "" {
        var u := PointTo(id,
                         if c.name.Some? && c.name.value != "" then c.name.value else existing.name,
                         if c.code.Some? && c.code.value != "" then c.code.value else existing.code);
        users := users[newManager.value := u];
        writes := writes + [UserWrite(newManager.value, u)];
        ws := ws + [(newManager.value, u)];
      }
      assert ws == ManagerWrites(id, existing, c);
      if |ws| == 2 {
        ApplyTwo(users0, ws[0], ws[1]);
        assert ws == [ws[0], ws[1]];
      } else if |ws| == 1 {
        ApplyOne(users0, ws[0]);
        assert ws == [ws[0]];
      }
    }

    /**
      `updateShowroom`: refused without a signed-in user, for an unknown id,
      or when a changed code is taken; otherwise the changes are merged,
      then the old manager's back-reference is cleared and the new
      manager's set.
     */
    method Update(id: nat, c: Changes, currentUser: Option<string>, now: int) returns (r: Result<Showroom, ShowroomError>)
      requires Valid()
      modifies this
      ensures Valid()
      ensures currentUser.None? ==> r == Err(NotAuthenticated)
      ensures currentUser.Some? && id !in old(showrooms) ==> r == Err(NotFound)
      ensures currentUser.Some? && id in old(showrooms) ==>
        (r == Err(CodeExists) <==> old(CodeClash(id, showrooms[id], c)))
      ensures r.Err? ==> unchanged(this)
      ensures r.Ok? ==>
        && id in old(showrooms) && r.value == Updated(old(showrooms)[id], c, now)
        && showrooms == old(showrooms)[id := r.value]
        && order == old(order) && nextId == old(nextId)
        && users == ApplyUsers(old(users), ManagerWrites(id, old(showrooms)[id], c))
        && writes == old(writes) + [ShowroomWrite(id, r.value)] + AsWrites(ManagerWrites(id, old(showrooms)[id], c))
    {
      if currentUser.None? {
        return Err(NotAuthenticated);
      }
      if id !in showrooms {
        return Err(NotFound);
      }
      var existing := showrooms[id];
      if c.code.Some? && c.code.value != "" && c.code.value != existing.code {
        var found := ByCode(c.code.value);
        if found.Some? && found.value.0 != id {
          return Err(CodeExists);
        }
      }
      var s := ApplyUpdate(id, c, now);
      r := Ok(s);
    }

    /** The writes of a permitted update: the merged record, then the manager back-references. */
    method ApplyUpdate(id: nat, c: Changes, now: int) returns (s: Showroom)
      requires Valid() && id in showrooms
      modifies this
      ensures Valid()
      ensures s == Updated(old(showrooms)[id], c, now)
      ensures showrooms == old(showrooms)[id := s] && order == old(order) && nextId == old(nextId)
      ensures users == ApplyUsers(old(users), ManagerWrites(id, old(showrooms)[id], c))
      ensures writes == old(writes) + [ShowroomWrite(id, s)] + AsWrites(ManagerWrites(id, old(showrooms)[id], c))
    {
      var existing := showrooms[id];
      s := Updated(existing, c, now);
      ReplaceKeepsTable(order, showrooms, nextId, id, s);
      showrooms := showrooms[id := s];
      writes := writes + [ShowroomWrite(id, s)];
      ReassignManager(id, existing, c);
    }

    /**
      `deleteShowroom`: refused for an unknown id; otherwise the manager's
      back-reference is cleared and the record stays, marked 'inactive'.
     */
    method Delete(id: nat, now: int) returns (r: Result<bool, ShowroomError>)
      requires Valid()
      modifies this
      ensures Valid()
      ensures id !in old(showrooms) ==> r == Err(NotFound) && unchanged(this)
      ensures id in old(showrooms) ==>
        var s := old(showrooms)[id];
        && r == Ok(true)
        && showrooms == old(showrooms)[id := s.(status := "inactive", updatedAt := now)]
        && order == old(order) && nextId == old(nextId)
        && users == (if HasManager(s) then old(users)[s.managerId.value := Cleared] else old(users))
        && writes == old(writes) + (if HasManager(s) then [UserWrite(s.managerId.value, Cleared)] else [])
                     + [ShowroomWrite(id, s.(status := "inactive", updatedAt := now))]
      ensures id in old(showrooms) && HasManager(old(showrooms)[id]) ==> old(showrooms)[id].managerId.value !in Staff(id)
    {
      if id !in showrooms {
        return Err(NotFound);
      }
      var s := showrooms[id];
      var deleted := s.(status := "inactive", updatedAt := now);
      ReplaceKeepsTable(order, showrooms, nextId, id, deleted);
      if HasManager(s) {
        users := users[s.managerId.value := Cleared];
        writes := writes + [UserWrite(s.managerId.value, Cleared), ShowroomWrite(id, deleted)];
      } else {
        writes := writes + [ShowroomWrite(id, deleted)];
      }
      showrooms := showrooms[id := deleted];
      r := Ok(true);
    }
  }

  /**
    The creation probe compares the code exactly while the stored code is
    uppercased: with "DS001" stored, "ds001" passes the probe and a second
    showroom with code "DS001" is created.
   */
  lemma LowerCaseCodePassesProbe(s: Showroom, d: NewShowroom, uid: string, now: int)
    requires s.code == "DS001" && d.code == "ds001"
    ensures FirstWithCode([(0, s)], d.code).None?
    ensures Created(d, uid, now).code == s.code
  {
    assert Upper(d.code) == "DS001";
  }
}
