/**
 * `WorkbasketServiceImpl`: workbasket and access-item persistence through
 * three mappers, each operation bracketed by opening and returning a
 * connection.
 *
 * The mappers are in-memory tables: the workbasket table keyed by id, the set
 * of (source, target) distribution links, and the access items keyed by id.
 * The clock, the current user's access ids, the security flag and the random
 * part of generated ids are parameters.
 */
module WorkbasketService {
  import opened Wrappers

  const IdPrefixWorkbasket := "WBI"
  const IdPrefixWorkbasketAuthorization := "WAI"

  /** Milliseconds since the epoch. */
  type Timestamp = int

  /**
   * A workbasket. `attributes` stands for its other columns (name, owner,
   * ...), which the service passes through unchanged.
   */
  datatype Workbasket = Workbasket(
    id: Option<string>,
    attributes: map<string, string>,
    created: Option<Timestamp>,
    modified: Option<Timestamp>,
    distributionTargets: Option<seq<Workbasket>>)

  datatype AccessItem = AccessItem(
    id: Option<string>,
    workbasketId: string,
    accessId: string,
    permissions: set<string>)

  /** A row of the distribution-target table. */
  datatype Link = Link(source: string, target: string)

  datatype ServiceError =
    | WorkbasketNotFound(workbasketId: string)
    | NotAuthorized(message: string)
    | NullPointer  // the distribution-target list of an update is null

  /** What the service does with its engine's connection and the access mapper, in order. */
  datatype Step =
    | OpenConnection
    | ReturnConnection
    | AccessQuery(workbasketId: string, accessIds: seq<string>, permission: string)

  /** The row the workbasket table keeps: its distribution targets live in the link table. */
  function Row(w: Workbasket): Workbasket {
    w.(distributionTargets := None)
  }

  function Stamped(w: Workbasket, now: Timestamp): Workbasket {
    w.(created := Some(now), modified := Some(now))
  }

  predicate AllIdentified(ws: seq<Workbasket>) {
    forall w :: w in ws ==> w.id.Some?
  }

  function Ids(ws: seq<Workbasket>): (r: set<string>)
    requires AllIdentified(ws)
    ensures forall i :: 0 <= i < |ws| ==> ws[i].id.value in r
    ensures forall k :: k in r ==> exists i :: 0 <= i < |ws| && ws[i].id == Some(k)
  {
    set w | w in ws :: w.id.value
  }

  /** The targets linked from `source`. */
  function TargetsOf(links: set<Link>, source: string): set<string> {
    set l | l in links && l.source == source :: l.target
  }

  function LinksFrom(source: string, targets: set<string>): (r: set<Link>)
    ensures forall l :: l in r <==> l.source == source && l.target in targets
  {
    set t | t in targets :: Link(source, t)
  }

  lemma IdsOfPrefix(ws: seq<Workbasket>, i: nat)
    requires AllIdentified(ws) && i < |ws|
    ensures AllIdentified(ws[..i]) && AllIdentified(ws[..i + 1])
    ensures Ids(ws[..i + 1]) == Ids(ws[..i]) + {ws[i].id.value}
  {
    assert ws[..i + 1] == ws[..i] + [ws[i]];
  }

  lemma TargetsOfAdd(links: set<Link>, source: string, target: string)
    ensures TargetsOf(links + {Link(source, target)}, source) == TargetsOf(links, source) + {target}
  {
    assert Link(source, target) in links + {Link(source, target)};
  }

  lemma TargetsOfRemove(links: set<Link>, source: string, targets: set<string>)
    ensures TargetsOf(links - LinksFrom(source, targets), source) == TargetsOf(links, source) - targets
  {
    var after := TargetsOf(links - LinksFrom(source, targets), source);
    forall t | t in TargetsOf(links, source) - targets ensures t in after {
      assert Link(source, t) in links - LinksFrom(source, targets);
    }
  }

  /** The message of the `NotAuthorizedException`. */
  function NotAuthorizedMessage(permission: string, workbasketId: string): string {
    "Not authorized. Authorization '" + permission + "' on workbasket '" + workbasketId + "' is needed."
  }

  /**
   * What `findByWorkbasketAndAccessIdAndAuthorizations` returns: the access
   * items on the workbasket, for one of the access ids, granting the permission.
   */
  function MatchingAccessItems(items: map<string, AccessItem>, workbasketId: string,
                               accessIds: seq<string>, permission: string): (r: set<string>)
    ensures r <= items.Keys
  {
    set k | k in items && items[k].workbasketId == workbasketId &&
            items[k].accessId in accessIds && permission in items[k].permissions
  }

  /** A permission is held when some access item of one of the access ids grants it on the workbasket. */
  predicate Authorized(items: map<string, AccessItem>, workbasketId: string,
                       accessIds: seq<string>, permission: string)
  {
    exists k :: k in items && items[k].workbasketId == workbasketId &&
                items[k].accessId in accessIds && permission in items[k].permissions
  }

  lemma MatchingIffAuthorized(items: map<string, AccessItem>, workbasketId: string,
                              accessIds: seq<string>, permission: string)
    ensures |MatchingAccessItems(items, workbasketId, accessIds, permission)| > 0 <==>
            Authorized(items, workbasketId, accessIds, permission)
  {
    var m := MatchingAccessItems(items, workbasketId, accessIds, permission);
    if Authorized(items, workbasketId, accessIds, permission) {
      var k :| k in items && items[k].workbasketId == workbasketId &&
               items[k].accessId in accessIds && permission in items[k].permissions;
      assert k in m;
    }
  }

  /**
   * The union of what `find` returns for the first `n` access ids: the
   * contents of the `HashSet` after `n` rounds of `addAll`.
   */
  function Collected(find: string -> seq<Workbasket>, accessIds: seq<string>, n: nat): set<Workbasket>
    requires n <= |accessIds|
  {
    if n == 0 then {} else Collected(find, accessIds, n - 1) + Elements(find(accessIds[n - 1]))
  }

  function Elements<T>(s: seq<T>): set<T> {
    set x | x in s
  }

  lemma {:induction false} CollectedMembers(find: string -> seq<Workbasket>, accessIds: seq<string>, n: nat, w: Workbasket)
    requires n <= |accessIds|
    ensures w in Collected(find, accessIds, n) <==> exists i :: 0 <= i < n && w in find(accessIds[i])
  {
    if n > 0 {
      CollectedMembers(find, accessIds, n - 1, w);
      if w in find(accessIds[n - 1]) {
        assert exists i :: 0 <= i < n && w in find(accessIds[i]);
      }
    }
  }

  predicate NoDuplicates<T(==)>(s: seq<T>) {
    forall i, j :: 0 <= i < j < |s| ==> s[i] != s[j]
  }

  /** `new ArrayList(set)`: every element of the set once, in some order. */
  method ListOf<T(==)>(s: set<T>) returns (r: seq<T>)
    ensures NoDuplicates(r)
    ensures forall x :: x in r <==> x in s
    ensures |r| == |s|
  {
    r := [];
    var rest := s;
    while rest != {}
      invariant rest <= s
      invariant forall x :: x in s <==> x in rest || x in r
      invariant forall x :: x in r ==> x !in rest
      invariant NoDuplicates(r)
      invariant |r| + |rest| == |s|
      decreases |rest|
    {
      var x :| x in rest;
      r := r + [x];
      rest := rest - {x};
    }
  }

  /** Every row is stored under its own id and carries no target list. */
  ghost predicate WellKeyed(table: map<string, Workbasket>) {
    forall k :: k in table ==> table[k].id == Some(k) && table[k].distributionTargets.None?
  }

  /**
   * The workbasket table after the row update of `updateWorkbasket`: the row
   * under the workbasket's id, if there is one, is replaced; no row is added.
   */
  function UpdateRow(table: map<string, Workbasket>, w: Workbasket): (r: map<string, Workbasket>)
    requires w.id.Some?
    ensures r.Keys == table.Keys
    ensures forall k :: k in table && k != w.id.value ==> r[k] == table[k]
    ensures w.id.value in table ==> r[w.id.value] == Row(w)
  {
    if w.id.value in table then table[w.id.value := Row(w)] else table
  }

  /** The distribution targets `createWorkbasket` walks: none when the list is null. */
  function TargetList(w: Workbasket): seq<Workbasket> {
    if w.distributionTargets.Some? then w.distributionTargets.value else []
  }

  lemma IdsCons(ws: seq<Workbasket>)
    requires AllIdentified(ws) && ws != []
    ensures AllIdentified(ws[1..])
    ensures Ids(ws) == {ws[0].id.value} + Ids(ws[1..])
  {
    assert ws == [ws[0]] + ws[1..];
  }

  lemma TargetsOfAddAll(links: set<Link>, source: string, targets: set<string>)
    ensures TargetsOf(links + LinksFrom(source, targets), source) == TargetsOf(links, source) + targets
  {
    var after := TargetsOf(links + LinksFrom(source, targets), source);
    forall t | t in targets ensures t in after {
      assert Link(source, t) in links + LinksFrom(source, targets);
    }
  }

  /**
   * The workbasket table after `createWorkbasket` has walked the targets `ts`
   * in order: each target whose id is not stored yet is stored, stamped with
   * `now`; a target already stored is left as it is.
   */
  function StoreMissing(table: map<string, Workbasket>, ts: seq<Workbasket>, now: Timestamp): (r: map<string, Workbasket>)
    requires AllIdentified(ts)
    ensures table.Keys <= r.Keys
    decreases |ts|
  {
    if ts == [] then table
    else
      var k := ts[0].id.value;
      assert ts[0] in ts;
      StoreMissing(if k in table then table else table[k := Row(Stamped(ts[0], now))], ts[1..], now)
  }

  /** Walking the targets stores exactly the listed ids that are missing and keeps every stored row. */
  lemma {:induction false} StoreMissingKeys(table: map<string, Workbasket>, ts: seq<Workbasket>, now: Timestamp)
    requires AllIdentified(ts)
    ensures var r := StoreMissing(table, ts, now);
      && r.Keys == table.Keys + Ids(ts)
      && (forall k :: k in table ==> r[k] == table[k])
    decreases |ts|
  {
    if ts != [] {
      IdsCons(ts);
      var k := ts[0].id.value;
      StoreMissingKeys(if k in table then table else table[k := Row(Stamped(ts[0], now))], ts[1..], now);
    }
  }

  /** Every row the walk adds is a listed target stamped with `now`. */
  lemma {:induction false} StoreMissingRows(table: map<string, Workbasket>, ts: seq<Workbasket>, now: Timestamp)
    requires AllIdentified(ts)
    ensures var r := StoreMissing(table, ts, now);
      forall k :: k in r && k !in table ==>
        exists i :: 0 <= i < |ts| && ts[i].id == Some(k) && r[k] == Row(Stamped(ts[i], now))
    decreases |ts|
  {
    if ts != [] {
      assert ts[0] in ts;
      IdsCons(ts);
      var k := ts[0].id.value;
      var next := if k in table then table else table[k := Row(Stamped(ts[0], now))];
      StoreMissingRows(next, ts[1..], now);
      StoreMissingKeys(next, ts[1..], now);
      var r := StoreMissing(table, ts, now);
      assert r == StoreMissing(next, ts[1..], now);
      forall kk | kk in r && kk !in table
        ensures exists i :: 0 <= i < |ts| && ts[i].id == Some(kk) && r[kk] == Row(Stamped(ts[i], now))
      {
        if kk in next {
          assert ts[0].id == Some(kk) && r[kk] == Row(Stamped(ts[0], now));
        } else {
          var j :| 0 <= j < |ts[1..]| && ts[1..][j].id == Some(kk) && r[kk] == Row(Stamped(ts[1..][j], now));
          assert ts[j + 1] == ts[1..][j];
        }
      }
    }
  }

  /** The walk keeps every row under its own id. */
  lemma {:induction false} StoreMissingKeyed(table: map<string, Workbasket>, ts: seq<Workbasket>, now: Timestamp)
    requires AllIdentified(ts) && WellKeyed(table)
    ensures WellKeyed(StoreMissing(table, ts, now))
    decreases |ts|
  {
    if ts != [] {
      assert ts[0] in ts;
      IdsCons(ts);
      var k := ts[0].id.value;
      StoreMissingKeyed(if k in table then table else table[k := Row(Stamped(ts[0], now))], ts[1..], now);
    }
  }

  /** The state `updateWorkbasket` carries through its target loop. */
  datatype Reconciliation = Reconciliation(
    table: map<string, Workbasket>,
    links: set<Link>,
    remaining: set<string>)  // the old targets not met yet

  /**
   * `updateWorkbasket`'s walk over the targets `ts` of `source`: a target that
   * is not among the remaining old targets is stored if missing and linked;
   * one that is, is struck off the remaining ones.
   */
  function Reconcile(st: Reconciliation, source: string, ts: seq<Workbasket>): (r: Reconciliation)
    requires AllIdentified(ts)
    ensures st.table.Keys <= r.table.Keys && st.links <= r.links && r.remaining <= st.remaining
    decreases |ts|
  {
    if ts == [] then st
    else
      assert ts[0] in ts;
      Reconcile(ReconcileOne(st, source, ts[0].id.value, Row(ts[0])), source, ts[1..])
  }

  /** The step `Reconcile` takes for one target. */
  function ReconcileOne(st: Reconciliation, source: string, k: string, row: Workbasket): Reconciliation {
    if k !in st.remaining then
      Reconciliation(if k in st.table then st.table else st.table[k := row],
                     st.links + {Link(source, k)}, st.remaining)
    else st.(remaining := st.remaining - {k})
  }

  /**
   * When the remaining targets are all linked, the walk links `source` to
   * every listed target and strikes every listed target off the remaining ones.
   */
  lemma {:induction false} ReconcileLinks(st: Reconciliation, source: string, ts: seq<Workbasket>)
    requires AllIdentified(ts)
    requires st.remaining <= TargetsOf(st.links, source)
    ensures var r := Reconcile(st, source, ts);
      && r.links == st.links + LinksFrom(source, Ids(ts))
      && r.remaining == st.remaining - Ids(ts)
    decreases |ts|
  {
    if ts != [] {
      IdsCons(ts);
      var k := ts[0].id.value;
      var next := ReconcileOne(st, source, k, Row(ts[0]));
      if k !in st.remaining {
        TargetsOfAdd(st.links, source, k);
      } else {
        var l :| l in st.links && l.source == source && l.target == k;
        assert l == Link(source, k);
      }
      ReconcileLinks(next, source, ts[1..]);
    }
  }

  /**
   * The walk keeps every stored row and stores every listed target that was
   * not among the remaining old targets.
   */
  lemma {:induction false} ReconcileKeys(st: Reconciliation, source: string, ts: seq<Workbasket>)
    requires AllIdentified(ts)
    ensures var r := Reconcile(st, source, ts);
      && st.table.Keys <= r.table.Keys
      && (forall k :: k in st.table ==> r.table[k] == st.table[k])
      && (forall k :: k in Ids(ts) && k !in st.remaining ==> k in r.table)
    decreases |ts|
  {
    if ts != [] {
      IdsCons(ts);
      ReconcileKeys(ReconcileOne(st, source, ts[0].id.value, Row(ts[0])), source, ts[1..]);
    }
  }

  /** Every row the walk adds is a listed target. */
  lemma {:induction false} ReconcileRows(st: Reconciliation, source: string, ts: seq<Workbasket>)
    requires AllIdentified(ts)
    ensures var r := Reconcile(st, source, ts);
      forall k :: k in r.table && k !in st.table ==>
        exists i :: 0 <= i < |ts| && ts[i].id == Some(k) && r.table[k] == Row(ts[i])
    decreases |ts|
  {
    if ts != [] {
      assert ts[0] in ts;
      IdsCons(ts);
      var next := ReconcileOne(st, source, ts[0].id.value, Row(ts[0]));
      ReconcileRows(next, source, ts[1..]);
      ReconcileKeys(next, source, ts[1..]);
      var r := Reconcile(st, source, ts);
      assert r == Reconcile(next, source, ts[1..]);
      forall kk | kk in r.table && kk !in st.table
        ensures exists i :: 0 <= i < |ts| && ts[i].id == Some(kk) && r.table[kk] == Row(ts[i])
      {
        if kk in next.table {
          assert ts[0].id == Some(kk) && r.table[kk] == Row(ts[0]);
        } else {
          var j :| 0 <= j < |ts[1..]| && ts[1..][j].id == Some(kk) && r.table[kk] == Row(ts[1..][j]);
          assert ts[j + 1] == ts[1..][j];
        }
      }
    }
  }

  /** The walk keeps every row under its own id. */
  lemma {:induction false} ReconcileKeyed(st: Reconciliation, source: string, ts: seq<Workbasket>)
    requires AllIdentified(ts) && WellKeyed(st.table)
    ensures WellKeyed(Reconcile(st, source, ts).table)
    decreases |ts|
  {
    if ts != [] {
      assert ts[0] in ts;
      IdsCons(ts);
      ReconcileKeyed(ReconcileOne(st, source, ts[0].id.value, Row(ts[0])), source, ts[1..]);
    }
  }

  /**
   * The tables after `updateWorkbasket`'s target loop and the final deletion
   * of the links to the old targets that were not listed.
   */
  function UpdateTargets(table: map<string, Workbasket>, links: set<Link>, source: string,
                         ts: seq<Workbasket>): (r: (map<string, Workbasket>, set<Link>))
    requires AllIdentified(ts)
    ensures table.Keys <= r.0.Keys
  {
    var r := Reconcile(Reconciliation(table, links, TargetsOf(links, source)), source, ts);
    (r.table, r.links - LinksFrom(source, r.remaining))
  }

  /**
   * After an update the workbasket's targets are exactly the listed ones, the
   * other workbaskets' links are untouched, stored rows are kept, every newly
   * listed target is stored, and every new row is a listed target.
   */
  lemma UpdateTargetsSpec(table: map<string, Workbasket>, links: set<Link>, source: string, ts: seq<Workbasket>)
    requires AllIdentified(ts)
    ensures var (t, l) := UpdateTargets(table, links, source, ts);
      && TargetsOf(l, source) == Ids(ts)
      && (forall x: Link :: x.source != source ==> (x in l <==> x in links))
      && table.Keys <= t.Keys
      && (forall k :: k in table ==> t[k] == table[k])
      && (forall k :: k in Ids(ts) && k !in TargetsOf(links, source) ==> k in t)
      && (forall k :: k in t && k !in table ==>
            exists i :: 0 <= i < |ts| && ts[i].id == Some(k) && t[k] == Row(ts[i]))
  {
    var st := Reconciliation(table, links, TargetsOf(links, source));
    var r := Reconcile(st, source, ts);
    ReconcileLinks(st, source, ts);
    ReconcileKeys(st, source, ts);
    ReconcileRows(st, source, ts);
    TargetsOfAddAll(links, source, Ids(ts));
    TargetsOfRemove(r.links, source, r.remaining);
  }

  class WorkbasketServiceImpl {
    var workbaskets: map<string, Workbasket>
    var links: set<Link>
    var accessItems: map<string, AccessItem>
    var trace: seq<Step>

    /** Every row is stored under its own id, and workbasket rows carry no target list. */
    ghost predicate Valid()
      reads this
    {
      && WellKeyed(workbaskets)
      && (forall k :: k in accessItems ==> accessItems[k].id == Some(k))
    }

    constructor ()
      ensures Valid()
      ensures workbaskets == map[] && links == {} && accessItems == map[] && trace == []
    {
      workbaskets := map[];
      links := {};
      accessItems := map[];
      trace := [];
    }

    method GetWorkbasket(workbasketId: string) returns (r: Result<Workbasket, ServiceError>)
      modifies this`trace
      ensures trace == old(trace) + [OpenConnection, ReturnConnection]
      ensures workbasketId in workbaskets ==> r == Ok(workbaskets[workbasketId])
      ensures workbasketId !in workbaskets ==> r == Err(WorkbasketNotFound(workbasketId))
    {
      trace := trace + [OpenConnection];
      if workbasketId in workbaskets {
        r := Ok(workbaskets[workbasketId]);
      } else {
        r := Err(WorkbasketNotFound(workbasketId));
      }
      trace := trace + [ReturnConnection];
    }

    /**
     * The workbaskets any of the current user's access ids can reach with the
     * permissions, each once. `findByPermission` is the mapper query, which is
     * not part of this model, applied to the permissions.
     */
    method GetWorkbasketsByPermission(findByPermission: string -> seq<Workbasket>, accessIds: seq<string>)
      returns (r: seq<Workbasket>)
      modifies this`trace
      ensures trace == old(trace) + [OpenConnection, ReturnConnection]
      ensures NoDuplicates(r)
      ensures forall w :: w in r <==> exists i :: 0 <= i < |accessIds| && w in findByPermission(accessIds[i])
    {
      trace := trace + [OpenConnection];
      var found: set<Workbasket> := {};
      for n := 0 to |accessIds|
        invariant trace == old(trace) + [OpenConnection]
        invariant found == Collected(findByPermission, accessIds, n)
      {
        found := found + Elements(findByPermission(accessIds[n]));
      }
      r := ListOf(found);
      forall w ensures w in r <==> exists i :: 0 <= i < |accessIds| && w in findByPermission(accessIds[i]) {
        CollectedMembers(findByPermission, accessIds, |accessIds|, w);
      }
      trace := trace + [ReturnConnection];
    }

    /** `getWorkbaskets()`: every stored workbasket. */
    method GetAllWorkbaskets() returns (r: seq<Workbasket>)
      modifies this`trace
      ensures trace == old(trace) + [OpenConnection, ReturnConnection]
      ensures NoDuplicates(r) && forall w :: w in r <==> w in workbaskets.Values
    {
      trace := trace + [OpenConnection];
      r := ListOf(workbaskets.Values);
      trace := trace + [ReturnConnection];
    }

    /** `createWorkbasket`'s loop: store each missing target, stamped, and link the workbasket to it. */
    method StoreTargets(id: string, targets: seq<Workbasket>, now: Timestamp)
      requires AllIdentified(targets)
      modifies this`workbaskets, this`links
      ensures workbaskets == StoreMissing(old(workbaskets), targets, now)
      ensures links == old(links) + LinksFrom(id, Ids(targets))
    {
      for i := 0 to |targets|
        invariant AllIdentified(targets[i..])
        invariant StoreMissing(workbaskets, targets[i..], now) == StoreMissing(old(workbaskets), targets, now)
        invariant links == old(links) + LinksFrom(id, Ids(targets[..i]))
      {
        IdsOfPrefix(targets, i);
        assert targets[i..][1..] == targets[i + 1..];
        var target := targets[i].id.value;
        if target !in workbaskets {
          workbaskets := workbaskets[target := Row(Stamped(targets[i], now))];
        }
        links := links + {Link(id, target)};
      }
      assert targets[..|targets|] == targets;
    }

    /**
     * `updateWorkbasket`'s loop over the listed targets, starting from the
     * targets linked now; returns the old targets that were not listed.
     */
    method ReconcileTargets(id: string, targets: seq<Workbasket>) returns (remaining: set<string>)
      requires AllIdentified(targets)
      modifies this`workbaskets, this`links
      ensures Reconciliation(workbaskets, links, remaining) ==
              Reconcile(Reconciliation(old(workbaskets), old(links), TargetsOf(old(links), id)), id, targets)
    {
      remaining := TargetsOf(links, id);
      for i := 0 to |targets|
        invariant AllIdentified(targets[i..])
        invariant Reconcile(Reconciliation(workbaskets, links, remaining), id, targets[i..]) ==
                  Reconcile(Reconciliation(old(workbaskets), old(links), TargetsOf(old(links), id)), id, targets)
      {
        assert targets[i..][1..] == targets[i + 1..];
        var target := targets[i].id.value;
        if target !in remaining {
          if target !in workbaskets {
            workbaskets := workbaskets[target := Row(targets[i])];
          }
          links := links + {Link(id, target)};
        } else {
          remaining := remaining - {target};
        }
      }
    }

    /**
     * Creates the workbasket stamped with `now`, under a generated id when it
     * has none, then every listed distribution target that is not stored yet,
     * stamped alike, and a link from the workbasket to every listed target.
     */
    method CreateWorkbasket(workbasket: Workbasket, now: Timestamp, idSuffix: string)
      returns (r: Workbasket)
      requires Valid()
      requires AllIdentified(TargetList(workbasket))
      modifies this`workbaskets, this`links, this`trace
      ensures Valid()
      ensures trace == old(trace) + [OpenConnection, ReturnConnection]
      ensures r.created == Some(now) && r.modified == Some(now)
      ensures workbasket.id.None? || workbasket.id == Some("") ==> r.id == Some(IdPrefixWorkbasket + idSuffix)
      ensures workbasket.id.Some? && workbasket.id != Some("") ==> r.id == workbasket.id
      ensures r == Row(Stamped(workbasket.(id := r.id), now))
      ensures r.id.Some? && r.id.value in workbaskets && workbaskets[r.id.value] == r
      ensures workbaskets == StoreMissing(old(workbaskets)[r.id.value := r], TargetList(workbasket), now)
      ensures links == old(links) + LinksFrom(r.id.value, Ids(TargetList(workbasket)))
    {
      trace := trace + [OpenConnection];
      var id := if workbasket.id.None? || workbasket.id == Some("") then IdPrefixWorkbasket + idSuffix
                else workbasket.id.value;
      var created := Row(Stamped(workbasket.(id := Some(id)), now));
      workbaskets := workbaskets[id := created];
      ghost var base := workbaskets;
      var targets := TargetList(workbasket);
      StoreTargets(id, targets, now);
      StoreMissingKeys(base, targets, now);
      StoreMissingKeyed(base, targets, now);
      r := workbaskets[id];
      trace := trace + [ReturnConnection];
    }

    /**
     * Updates the workbasket stamped with `now` (the update touches no row
     * when none has its id) and reconciles its distribution targets; a null
     * target list fails after the row update.
     */
    method UpdateWorkbasket(workbasket: Workbasket, now: Timestamp)
      returns (r: Result<Option<Workbasket>, ServiceError>)
      requires Valid()
      requires workbasket.id.Some?
      requires AllIdentified(TargetList(workbasket))
      modifies this`workbaskets, this`links, this`trace
      ensures Valid()
      ensures trace == old(trace) + [OpenConnection, ReturnConnection]
      ensures var touched := UpdateRow(old(workbaskets), workbasket.(modified := Some(now)));
        if workbasket.distributionTargets.None? then
          r == Err(NullPointer) && workbaskets == touched && links == old(links)
        else
          && (workbaskets, links) == UpdateTargets(touched, old(links), workbasket.id.value, TargetList(workbasket))
          && r == Ok(if workbasket.id.value in workbaskets then Some(workbaskets[workbasket.id.value]) else None)
    {
      trace := trace + [OpenConnection];
      var id := workbasket.id.value;
      workbaskets := UpdateRow(workbaskets, workbasket.(modified := Some(now)));
      if workbasket.distributionTargets.None? {
        r := Err(NullPointer);
        trace := trace + [ReturnConnection];
        return;
      }
      ghost var start := Reconciliation(workbaskets, links, TargetsOf(links, id));
      var targets := workbasket.distributionTargets.value;
      var remaining := ReconcileTargets(id, targets);
      ReconcileKeyed(start, id, targets);
      links := links - LinksFrom(id, remaining);
      r := Ok(if id in workbaskets then Some(workbaskets[id]) else None);
      trace := trace + [ReturnConnection];
    }

    /** Stores the access item under a freshly generated `WAI` id. */
    method CreateWorkbasketAuthorization(item: AccessItem, idSuffix: string) returns (r: AccessItem)
      requires Valid()
      modifies this`accessItems, this`trace
      ensures Valid()
      ensures trace == old(trace) + [OpenConnection, ReturnConnection]
      ensures r == item.(id := Some(IdPrefixWorkbasketAuthorization + idSuffix))
      ensures accessItems == old(accessItems)[r.id.value := r]
    {
      trace := trace + [OpenConnection];
      r := item.(id := Some(IdPrefixWorkbasketAuthorization + idSuffix));
      accessItems := accessItems[r.id.value := r];
      trace := trace + [ReturnConnection];
    }

    method GetWorkbasketAuthorization(id: string) returns (r: Option<AccessItem>)
      modifies this`trace
      ensures trace == old(trace) + [OpenConnection, ReturnConnection]
      ensures r == if id in accessItems then Some(accessItems[id]) else None
    {
      trace := trace + [OpenConnection];
      r := if id in accessItems then Some(accessItems[id]) else None;
      trace := trace + [ReturnConnection];
    }

    method DeleteWorkbasketAuthorization(id: string)
      requires Valid()
      modifies this`accessItems, this`trace
      ensures Valid()
      ensures trace == old(trace) + [OpenConnection, ReturnConnection]
      ensures accessItems == old(accessItems) - {id}
    {
      trace := trace + [OpenConnection];
      accessItems := accessItems - {id};
      trace := trace + [ReturnConnection];
    }

    method GetAllAuthorizations() returns (r: seq<AccessItem>)
      modifies this`trace
      ensures trace == old(trace) + [OpenConnection, ReturnConnection]
      ensures NoDuplicates(r) && forall a :: a in r <==> a in accessItems.Values
    {
      trace := trace + [OpenConnection];
      r := ListOf(accessItems.Values);
      trace := trace + [ReturnConnection];
    }

    /** Overwrites the stored item with the same id; an item that is not stored changes nothing. */
    method UpdateWorkbasketAuthorization(item: AccessItem) returns (r: AccessItem)
      requires Valid()
      modifies this`accessItems, this`trace
      ensures Valid()
      ensures trace == old(trace) + [OpenConnection, ReturnConnection]
      ensures r == item
      ensures accessItems == if item.id.Some? && item.id.value in old(accessItems)
                             then old(accessItems)[item.id.value := item] else old(accessItems)
    {
      trace := trace + [OpenConnection];
      if item.id.Some? && item.id.value in accessItems {
        accessItems := accessItems[item.id.value := item];
      }
      r := item;
      trace := trace + [ReturnConnection];
    }

    method GetWorkbasketAuthorizations(workbasketId: string) returns (r: seq<AccessItem>)
      modifies this`trace
      ensures trace == old(trace) + [OpenConnection, ReturnConnection]
      ensures NoDuplicates(r)
      ensures forall a :: a in r <==> a in accessItems.Values && a.workbasketId == workbasketId
    {
      trace := trace + [OpenConnection];
      r := ListOf(set a | a in accessItems.Values && a.workbasketId == workbasketId);
      trace := trace + [ReturnConnection];
    }

    /**
     * Passes at once when security is disabled; otherwise queries the access
     * items and fails unless one grants the permission.
     */
    method CheckAuthorization(workbasketId: string, permission: string,
                              securityEnabled: bool, accessIds: seq<string>)
      returns (r: Result<(), ServiceError>)
      modifies this`trace
      ensures !securityEnabled ==> r == Ok(()) && trace == old(trace) + [OpenConnection, ReturnConnection]
      ensures securityEnabled ==>
                trace == old(trace) + [OpenConnection, AccessQuery(workbasketId, accessIds, permission), ReturnConnection]
      ensures securityEnabled ==> (r.Ok? <==> Authorized(accessItems, workbasketId, accessIds, permission))
      ensures r.Err? ==> r.error == NotAuthorized(NotAuthorizedMessage(permission, workbasketId))
    {
      trace := trace + [OpenConnection];
      if !securityEnabled {
        r := Ok(());
        trace := trace + [ReturnConnection];
        return;
      }
      trace := trace + [AccessQuery(workbasketId, accessIds, permission)];
      var found := MatchingAccessItems(accessItems, workbasketId, accessIds, permission);
      MatchingIffAuthorized(accessItems, workbasketId, accessIds, permission);
      if |found| <= 0 {
        r := Err(NotAuthorized(NotAuthorizedMessage(permission, workbasketId)));
      } else {
        r := Ok(());
      }
      trace := trace + [ReturnConnection];
    }
  }
}
