/**
 * The backlink service of deepwell (services/link/service.rs): counting a
 * page's outgoing references into maps, and reconciling the three link
 * tables (`page_connection`, `page_connection_missing`, `page_link`)
 * against those maps.
 *
 * Each table is a map from the source page's id to that page's rows, each
 * row keyed as the source keys its counts map. Page lookup is an oracle
 * from (site id, page slug) to the page's id, if the page exists; `now()`
 * is a parameter.
 */
module Links {
  import opened Wrappers

  /** The two connection types `update` records. */
  datatype ConnectionType = IncludeMessy | Link

  /** A reference to a page, with an optional site slug. */
  datatype PageRef = PageRef(site: Option<string>, page: string)

  datatype Backlinks = Backlinks(
    includedPages: seq<PageRef>,
    internalLinks: seq<PageRef>,
    externalLinks: seq<string>)

  /** A stored row: its count, when it was created and when its count last changed. */
  datatype Row = Row(count: int, createdAt: int, updatedAt: Option<int>)

  datatype Error = NotFound | Exists

  /** `(to_page_id, connection_type)` */
  type ConnectionKey = (int, ConnectionType)

  /** `(to_site_id, to_page_slug, connection_type)` */
  type MissingKey = (int, string, ConnectionType)

  // ---------------------------------------------------------------------------
  // Counting

  /** `*map.entry(k).or_insert(0) += 1` */
  function Bump<K(==)>(m: map<K, int>, k: K): map<K, int> {
    m[k := (if k in m then m[k] else 0) + 1]
  }

  /** How often `k` occurs in `ks`. */
  function Occurrences<K(==)>(ks: seq<K>, k: K): nat {
    if |ks| == 0 then 0
    else Occurrences(ks[..|ks| - 1], k) + (if ks[|ks| - 1] == k then 1 else 0)
  }

  /** The counts map that bumping each key of `ks` in turn builds from an empty map. */
  function Tally<K(==)>(ks: seq<K>): map<K, int> {
    if |ks| == 0 then map[]
    else Bump(Tally(ks[..|ks| - 1]), ks[|ks| - 1])
  }

  /** The sum of a counts map's values. */
  ghost function Total<K>(m: map<K, int>): int
    decreases |m|
  {
    if |m| == 0 then 0
    else
      var k :| k in m;
      m[k] + Total(m - {k})
  }

  /** The total does not depend on which key the definition picks first. */
  lemma {:induction false} TotalPick<K>(m: map<K, int>, k: K)
    requires k in m
    ensures Total(m) == m[k] + Total(m - {k})
    decreases |m|, 1
  {
    var j :| j in m && Total(m) == m[j] + Total(m - {j});
    if j != k {
      TotalSwap(m, j, k);
    }
  }

  lemma {:induction false} TotalSwap<K>(m: map<K, int>, j: K, k: K)
    requires j in m && k in m && j != k
    ensures m[j] + Total(m - {j}) == m[k] + Total(m - {k})
    decreases |m|, 0
  {
    hide Total;
    var withoutJ, withoutK := m - {j}, m - {k};
    assert |withoutJ| == |m| - 1 && |withoutK| == |m| - 1;
    TotalPick(withoutJ, k);
    TotalPick(withoutK, j);
    assert withoutJ - {k} == withoutK - {j};
  }

  /** Bumping one entry adds exactly one to the total. */
  lemma TotalBump<K>(m: map<K, int>, k: K)
    ensures Total(Bump(m, k)) == Total(m) + 1
  {
    hide Total;
    var r := Bump(m, k);
    TotalPick(r, k);
    if k in m {
      TotalPick(m, k);
      assert r - {k} == m - {k};
    } else {
      assert r - {k} == m;
    }
  }

  lemma TallySnoc<K>(ks: seq<K>, k: K)
    ensures Tally(ks + [k]) == Bump(Tally(ks), k)
    ensures forall j :: Occurrences(ks + [k], j) == Occurrences(ks, j) + (if j == k then 1 else 0)
  {
    assert (ks + [k])[..|ks|] == ks;
  }

  /** A tally holds exactly the keys that occur, each with its multiplicity. */
  lemma {:induction false} TallyCounts<K>(ks: seq<K>, k: K)
    ensures k in Tally(ks) <==> Occurrences(ks, k) > 0
    ensures k in Tally(ks) ==> Tally(ks)[k] == Occurrences(ks, k)
  {
    if |ks| > 0 {
      TallyCounts(ks[..|ks| - 1], k);
    }
  }

  /** A tally's counts add up to the number of keys tallied. */
  lemma {:induction false} TallyTotal<K>(ks: seq<K>)
    ensures Total(Tally(ks)) == |ks|
  {
    if |ks| == 0 {
      assert Tally(ks) == map[];
    } else {
      TallyTotal(ks[..|ks| - 1]);
      TotalBump(Tally(ks[..|ks| - 1]), ks[|ks| - 1]);
    }
  }

  lemma OccurrencesAppend<K>(a: seq<K>, b: seq<K>, k: K)
    ensures Occurrences(a + b, k) == Occurrences(a, k) + Occurrences(b, k)
    decreases |b|
  {
    if |b| == 0 {
      assert a + b == a;
    } else {
      assert (a + b)[..|a + b| - 1] == a + b[..|b| - 1];
      OccurrencesAppend(a, b[..|b| - 1], k);
    }
  }

  /** The site a reference points into: the caller's site, or site 1 for any site slug. */
  function ToSiteId(siteId: int, r: PageRef): (s: int)
    ensures r.site.None? ==> s == siteId
    ensures r.site.Some? ==> s == 1
  {
    match r.site
    case None => siteId
    case Some(_) => 1
  }

  /** Where a reference of the given type is counted. */
  datatype Target = Present(key: ConnectionKey) | Absent(missing: MissingKey)

  function Resolve(siteId: int, lookup: (int, string) -> Option<int>, r: PageRef, ctype: ConnectionType): Target {
    var toSite := ToSiteId(siteId, r);
    match lookup(toSite, r.page)
    case Some(pageId) => Present((pageId, ctype))
    case None => Absent((toSite, r.page, ctype))
  }

  /** The `connections` keys the references add, in order. */
  function PresentKeys(siteId: int, lookup: (int, string) -> Option<int>, refs: seq<PageRef>, ctype: ConnectionType): seq<ConnectionKey> {
    if |refs| == 0 then []
    else
      var t := Resolve(siteId, lookup, refs[|refs| - 1], ctype);
      PresentKeys(siteId, lookup, refs[..|refs| - 1], ctype) + (if t.Present? then [t.key] else [])
  }

  /** The `connections_missing` keys the references add, in order. */
  function MissingKeys(siteId: int, lookup: (int, string) -> Option<int>, refs: seq<PageRef>, ctype: ConnectionType): seq<MissingKey> {
    if |refs| == 0 then []
    else
      var t := Resolve(siteId, lookup, refs[|refs| - 1], ctype);
      MissingKeys(siteId, lookup, refs[..|refs| - 1], ctype) + (if t.Absent? then [t.missing] else [])
  }

  lemma KeysSnoc(siteId: int, lookup: (int, string) -> Option<int>, refs: seq<PageRef>, r: PageRef, ctype: ConnectionType)
    ensures var t := Resolve(siteId, lookup, r, ctype);
      PresentKeys(siteId, lookup, refs + [r], ctype) == PresentKeys(siteId, lookup, refs, ctype) + (if t.Present? then [t.key] else []) &&
      MissingKeys(siteId, lookup, refs + [r], ctype) == MissingKeys(siteId, lookup, refs, ctype) + (if t.Absent? then [t.missing] else [])
  {
    assert (refs + [r])[..|refs|] == refs;
  }

  /** Every reference goes to exactly one of the two maps. */
  lemma {:induction false} KeysSplit(siteId: int, lookup: (int, string) -> Option<int>, refs: seq<PageRef>, ctype: ConnectionType)
    ensures |PresentKeys(siteId, lookup, refs, ctype)| + |MissingKeys(siteId, lookup, refs, ctype)| == |refs|
  {
    if |refs| > 0 {
      KeysSplit(siteId, lookup, refs[..|refs| - 1], ctype);
    }
  }

  /** Every key the references add carries their connection type. */
  lemma {:induction false} KeysTagged(siteId: int, lookup: (int, string) -> Option<int>, refs: seq<PageRef>, ctype: ConnectionType, pageId: int, other: ConnectionType)
    requires other != ctype
    ensures Occurrences(PresentKeys(siteId, lookup, refs, ctype), (pageId, other)) == 0
  {
    if |refs| > 0 {
      var front := PresentKeys(siteId, lookup, refs[..|refs| - 1], ctype);
      var t := Resolve(siteId, lookup, refs[|refs| - 1], ctype);
      KeysTagged(siteId, lookup, refs[..|refs| - 1], ctype, pageId, other);
      OccurrencesAppend(front, if t.Present? then [t.key] else [], (pageId, other));
      assert Occurrences(if t.Present? then [t.key] else [], (pageId, other)) == 0 by {
        if t.Present? {
          assert ([] + [t.key])[..0] == [];
        }
      }
    }
  }

  /** `count_connections`: one reference bumps exactly one entry of exactly one of the two maps. */
  method CountConnections(
    siteId: int, lookup: (int, string) -> Option<int>, r: PageRef, ctype: ConnectionType,
    connections: map<ConnectionKey, int>, connectionsMissing: map<MissingKey, int>)
    returns (connections': map<ConnectionKey, int>, connectionsMissing': map<MissingKey, int>)
    ensures Resolve(siteId, lookup, r, ctype).Present? ==>
      connections' == Bump(connections, Resolve(siteId, lookup, r, ctype).key) && connectionsMissing' == connectionsMissing
    ensures Resolve(siteId, lookup, r, ctype).Absent? ==>
      connections' == connections && connectionsMissing' == Bump(connectionsMissing, Resolve(siteId, lookup, r, ctype).missing)
    ensures Total(connections') + Total(connectionsMissing') == Total(connections) + Total(connectionsMissing) + 1
  {
    hide Total;
    var toSiteId;
    match r.site {
      case None => toSiteId := siteId;
      case Some(_) => toSiteId := 1;
    }
    assert toSiteId == ToSiteId(siteId, r);
    var page := lookup(toSiteId, r.page);
    connections', connectionsMissing' := connections, connectionsMissing;
    match page {
      case Some(toPageId) =>
        var key := (toPageId, ctype);
        var entry := if key in connections' then connections'[key] else 0;
        connections' := connections'[key := entry + 1];
        assert Resolve(siteId, lookup, r, ctype) == Present(key);
        TotalBump(connections, key);
      case None =>
        var key := (toSiteId, r.page, ctype);
        var entry := if key in connectionsMissing' then connectionsMissing'[key] else 0;
        connectionsMissing' := connectionsMissing'[key := entry + 1];
        assert Resolve(siteId, lookup, r, ctype) == Absent(key);
        TotalBump(connectionsMissing, key);
    }
  }

  /** The `connections` keys of a page's backlinks: includes first, then links. */
  function AllPresentKeys(siteId: int, lookup: (int, string) -> Option<int>, b: Backlinks): seq<ConnectionKey> {
    PresentKeys(siteId, lookup, b.includedPages, IncludeMessy) + PresentKeys(siteId, lookup, b.internalLinks, Link)
  }

  /** The `connections_missing` keys of a page's backlinks: includes first, then links. */
  function AllMissingKeys(siteId: int, lookup: (int, string) -> Option<int>, b: Backlinks): seq<MissingKey> {
    MissingKeys(siteId, lookup, b.includedPages, IncludeMessy) + MissingKeys(siteId, lookup, b.internalLinks, Link)
  }

  /** One more reference bumps the tally of whichever map it resolves into. */
  lemma CountStep(
    siteId: int, lookup: (int, string) -> Option<int>, refs: seq<PageRef>, i: nat,
    ctype: ConnectionType, presentFront: seq<ConnectionKey>, missingFront: seq<MissingKey>)
    requires i < |refs|
    ensures var t := Resolve(siteId, lookup, refs[i], ctype);
      var present := Tally(presentFront + PresentKeys(siteId, lookup, refs[..i + 1], ctype));
      var missing := Tally(missingFront + MissingKeys(siteId, lookup, refs[..i + 1], ctype));
      (t.Present? ==> (present == Bump(Tally(presentFront + PresentKeys(siteId, lookup, refs[..i], ctype)), t.key) &&
                       missing == Tally(missingFront + MissingKeys(siteId, lookup, refs[..i], ctype)))) &&
      (t.Absent? ==> (missing == Bump(Tally(missingFront + MissingKeys(siteId, lookup, refs[..i], ctype)), t.missing) &&
                      present == Tally(presentFront + PresentKeys(siteId, lookup, refs[..i], ctype))))
  {
    assert refs[..i + 1] == refs[..i] + [refs[i]];
    KeysSnoc(siteId, lookup, refs[..i], refs[i], ctype);
    var t := Resolve(siteId, lookup, refs[i], ctype);
    var present := PresentKeys(siteId, lookup, refs[..i], ctype);
    var missing := MissingKeys(siteId, lookup, refs[..i], ctype);
    if t.Present? {
      assert presentFront + (present + [t.key]) == (presentFront + present) + [t.key];
      TallySnoc(presentFront + present, t.key);
      assert missing + [] == missing;
    } else {
      assert missingFront + (missing + [t.missing]) == (missingFront + missing) + [t.missing];
      TallySnoc(missingFront + missing, t.missing);
      assert present + [] == present;
    }
  }

  /**
   * One of `update`'s two counting loops: `count_connections` for each
   * reference in turn, on maps that already hold the tallies of the keys
   * `presentFront` and `missingFront`.
   */
  method CountEach(
    siteId: int, lookup: (int, string) -> Option<int>, refs: seq<PageRef>, ctype: ConnectionType,
    ghost presentFront: seq<ConnectionKey>, ghost missingFront: seq<MissingKey>,
    connections: map<ConnectionKey, int>, connectionsMissing: map<MissingKey, int>)
    returns (connections': map<ConnectionKey, int>, connectionsMissing': map<MissingKey, int>)
    requires connections == Tally(presentFront) && connectionsMissing == Tally(missingFront)
    ensures connections' == Tally(presentFront + PresentKeys(siteId, lookup, refs, ctype))
    ensures connectionsMissing' == Tally(missingFront + MissingKeys(siteId, lookup, refs, ctype))
  {
    hide Total;
    assert refs[..0] == [];
    assert presentFront + PresentKeys(siteId, lookup, [], ctype) == presentFront;
    assert missingFront + MissingKeys(siteId, lookup, [], ctype) == missingFront;
    hide Tally, PresentKeys, MissingKeys, Bump, Resolve;
    connections', connectionsMissing' := connections, connectionsMissing;
    var i := 0;
    while i < |refs|
      invariant 0 <= i <= |refs|
      invariant connections' == Tally(presentFront + PresentKeys(siteId, lookup, refs[..i], ctype))
      invariant connectionsMissing' == Tally(missingFront + MissingKeys(siteId, lookup, refs[..i], ctype))
    {
      connections', connectionsMissing' := CountConnections(siteId, lookup, refs[i], ctype, connections', connectionsMissing');
      CountStep(siteId, lookup, refs, i, ctype, presentFront, missingFront);
      i := i + 1;
    }
    assert refs[..i] == refs;
  }

  /** The counting phase of `update`: includes, then internal links, then external URLs. */
  method CountReferences(siteId: int, lookup: (int, string) -> Option<int>, backlinks: Backlinks)
    returns (connections: map<ConnectionKey, int>, connectionsMissing: map<MissingKey, int>, externalLinks: map<string, int>)
    ensures connections == Tally(AllPresentKeys(siteId, lookup, backlinks))
    ensures connectionsMissing == Tally(AllMissingKeys(siteId, lookup, backlinks))
    ensures externalLinks == Tally(backlinks.externalLinks)
  {
    hide Total;
    // Includes count as `IncludeMessy` connections.
    connections, connectionsMissing := CountEach(siteId, lookup, backlinks.includedPages, IncludeMessy, [], [], map[], map[]);
    var presentFront := PresentKeys(siteId, lookup, backlinks.includedPages, IncludeMessy);
    var missingFront := MissingKeys(siteId, lookup, backlinks.includedPages, IncludeMessy);
    assert [] + presentFront == presentFront && [] + missingFront == missingFront;

    // Internal links count as `Link` connections.
    connections, connectionsMissing := CountEach(siteId, lookup, backlinks.internalLinks, Link, presentFront, missingFront, connections, connectionsMissing);

    // External URLs are tallied on their own.
    var urls := backlinks.externalLinks;
    externalLinks := map[];
    assert Tally(urls[..0]) == map[];
    hide Tally;
    var k := 0;
    while k < |urls|
      invariant 0 <= k <= |urls|
      invariant externalLinks == Tally(urls[..k])
    {
      var url := urls[k];
      var entry := if url in externalLinks then externalLinks[url] else 0;
      externalLinks := externalLinks[url := entry + 1];
      assert urls[..k + 1] == urls[..k] + [url];
      TallySnoc(urls[..k], url);
      k := k + 1;
    }
    assert urls[..k] == urls;
  }

  /** The two connection maps together count every include and every internal link once. */
  lemma CountsTotal(siteId: int, lookup: (int, string) -> Option<int>, b: Backlinks)
    ensures Total(Tally(AllPresentKeys(siteId, lookup, b))) + Total(Tally(AllMissingKeys(siteId, lookup, b)))
      == |b.includedPages| + |b.internalLinks|
  {
    TallyTotal(AllPresentKeys(siteId, lookup, b));
    TallyTotal(AllMissingKeys(siteId, lookup, b));
    KeysSplit(siteId, lookup, b.includedPages, IncludeMessy);
    KeysSplit(siteId, lookup, b.internalLinks, Link);
  }

  /**
   * Includes are counted as `IncludeMessy` and links as `Link`: the count under
   * `(page, IncludeMessy)` is the number of includes of that page, and the
   * count under `(page, Link)` the number of links to it.
   */
  lemma CountsTagged(siteId: int, lookup: (int, string) -> Option<int>, b: Backlinks, pageId: int)
    ensures var c := Tally(AllPresentKeys(siteId, lookup, b));
      var includes := Occurrences(PresentKeys(siteId, lookup, b.includedPages, IncludeMessy), (pageId, IncludeMessy));
      var links := Occurrences(PresentKeys(siteId, lookup, b.internalLinks, Link), (pageId, Link));
      ((pageId, IncludeMessy) in c <==> includes > 0) &&
      ((pageId, IncludeMessy) in c ==> c[(pageId, IncludeMessy)] == includes) &&
      ((pageId, Link) in c <==> links > 0) &&
      ((pageId, Link) in c ==> c[(pageId, Link)] == links)
  {
    var inc := PresentKeys(siteId, lookup, b.includedPages, IncludeMessy);
    var lnk := PresentKeys(siteId, lookup, b.internalLinks, Link);
    TallyCounts(inc + lnk, (pageId, IncludeMessy));
    TallyCounts(inc + lnk, (pageId, Link));
    OccurrencesAppend(inc, lnk, (pageId, IncludeMessy));
    OccurrencesAppend(inc, lnk, (pageId, Link));
    KeysTagged(siteId, lookup, b.internalLinks, Link, pageId, IncludeMessy);
    KeysTagged(siteId, lookup, b.includedPages, IncludeMessy, pageId, Link);
  }

  /** The external-link map gives each URL its multiplicity among the external links. */
  lemma ExternalMultiplicity(b: Backlinks, url: string)
    ensures url in Tally(b.externalLinks) <==> Occurrences(b.externalLinks, url) > 0
    ensures url in Tally(b.externalLinks) ==> Tally(b.externalLinks)[url] == Occurrences(b.externalLinks, url)
  {
    TallyCounts(b.externalLinks, url);
  }

  // ---------------------------------------------------------------------------
  // Reconciliation

  /** A stored row whose key is still counted: untouched if its count is the same, else recounted and stamped. */
  function Refreshed(stored: Row, count: int, now: int): Row {
    if stored.count == count then stored else Row(count, stored.createdAt, Some(now))
  }

  /** A page's rows after reconciliation against its counts map. */
  function Reconciled<K(==)>(stored: map<K, Row>, counts: map<K, int>, now: int): map<K, Row> {
    map k | k in counts :: if k in stored then Refreshed(stored[k], counts[k], now) else Row(counts[k], now, None)
  }

  /** Reconciliation leaves exactly the counts map behind. */
  lemma ReconciledCounts<K>(stored: map<K, Row>, counts: map<K, int>, now: int)
    ensures (map k | k in Reconciled(stored, counts, now) :: Reconciled(stored, counts, now)[k].count) == counts
  {
  }

  /** What reconciliation does to each key. */
  lemma ReconciledCases<K>(stored: map<K, Row>, counts: map<K, int>, now: int, k: K)
    ensures var r := Reconciled(stored, counts, now);
      (k in stored && k !in counts ==> k !in r) &&
      (k in stored && k in counts && stored[k].count == counts[k] ==> k in r && r[k] == stored[k]) &&
      (k in stored && k in counts && stored[k].count != counts[k] ==>
        k in r && r[k] == Row(counts[k], stored[k].createdAt, Some(now))) &&
      (k !in stored && k in counts ==> k in r && r[k] == Row(counts[k], now, None))
  {
  }

  /** The rows `update_connections` sees after scanning all but the `pending` stored rows. */
  function Scanned<K(==)>(stored: map<K, Row>, counts: map<K, int>, pending: set<K>, now: int): map<K, Row> {
    map k | k in stored && (k in pending || k in counts) ::
      if k in pending then stored[k] else Refreshed(stored[k], counts[k], now)
  }

  /** Scanning one more stored row: kept, recounted or deleted. */
  lemma ScanStep<K>(stored: map<K, Row>, counts: map<K, int>, pending: set<K>, k: K, now: int)
    requires k in pending && pending <= stored.Keys
    ensures var before := Scanned(stored, counts, pending, now);
      Scanned(stored, counts, pending - {k}, now) ==
        if k !in counts then before - {k}
        else if stored[k].count == counts[k] then before
        else before[k := Row(counts[k], stored[k].createdAt, Some(now))]
  {
  }

  /** After the scan, inserting every key left over completes the reconciliation. */
  lemma ScanDone<K>(stored: map<K, Row>, counts: map<K, int>, now: int)
    ensures var remaining := counts - stored.Keys;
      Scanned(stored, counts, {}, now) + (map k | k in remaining :: Row(remaining[k], now, None)) == Reconciled(stored, counts, now)
  {
  }

  /**
   * The body shared by `update_connections`, `update_connections_missing` and
   * `update_external_links`: each stored row is looked up in the counts map
   * and removed from it, then each key still left is inserted as a new row.
   */
  method ReconcileRows<K(==)>(stored: map<K, Row>, counts: map<K, int>, now: int) returns (rows: map<K, Row>)
    ensures rows == Reconciled(stored, counts, now)
  {
    assert stored == Scanned(stored, counts, stored.Keys, now);
    hide Scanned, Reconciled;
    rows := stored;
    var remaining := counts;
    var pending := stored.Keys;
    while pending != {}
      invariant pending <= stored.Keys
      invariant remaining == counts - (stored.Keys - pending)
      invariant rows == Scanned(stored, counts, pending, now)
      decreases |pending|
    {
      var k :| k in pending;
      ScanStep(stored, counts, pending, k, now);
      var connection := stored[k];
      if k in remaining {
        var count := remaining[k];
        remaining := remaining - {k};
        if connection.count != count {
          rows := rows[k := Row(count, connection.createdAt, Some(now))];
        }
      } else {
        rows := rows - {k};
      }
      pending := pending - {k};
      assert remaining == counts - (stored.Keys - pending);
    }
    assert remaining == counts - stored.Keys;
    ScanDone(stored, counts, now);
    rows := rows + map k | k in remaining :: Row(remaining[k], now, None);
  }

  /** The rows of one source page in a table. */
  function RowsFrom<K(==)>(table: map<int, map<K, Row>>, fromPageId: int): map<K, Row> {
    if fromPageId in table then table[fromPageId] else map[]
  }

  /** The three link tables, each grouped by source page id. */
  class LinkTables {
    var connections: map<int, map<ConnectionKey, Row>>
    var connectionsMissing: map<int, map<MissingKey, Row>>
    var pageLinks: map<int, map<string, Row>>

    constructor ()
      ensures connections == map[] && connectionsMissing == map[] && pageLinks == map[]
    {
      connections, connectionsMissing, pageLinks := map[], map[], map[];
    }

    /** `update_connections` */
    method UpdateConnections(fromPageId: int, counts: map<ConnectionKey, int>, now: int)
      modifies this
      ensures connections == old(connections)[fromPageId := Reconciled(RowsFrom(old(connections), fromPageId), counts, now)]
      ensures connectionsMissing == old(connectionsMissing) && pageLinks == old(pageLinks)
    {
      var rows := ReconcileRows(RowsFrom(connections, fromPageId), counts, now);
      connections := connections[fromPageId := rows];
    }

    /** `update_connections_missing` */
    method UpdateConnectionsMissing(fromPageId: int, counts: map<MissingKey, int>, now: int)
      modifies this
      ensures connectionsMissing == old(connectionsMissing)[fromPageId := Reconciled(RowsFrom(old(connectionsMissing), fromPageId), counts, now)]
      ensures connections == old(connections) && pageLinks == old(pageLinks)
    {
      var rows := ReconcileRows(RowsFrom(connectionsMissing, fromPageId), counts, now);
      connectionsMissing := connectionsMissing[fromPageId := rows];
    }

    /** `update_external_links` */
    method UpdateExternalLinks(fromPageId: int, counts: map<string, int>, now: int)
      modifies this
      ensures pageLinks == old(pageLinks)[fromPageId := Reconciled(RowsFrom(old(pageLinks), fromPageId), counts, now)]
      ensures connections == old(connections) && connectionsMissing == old(connectionsMissing)
    {
      var rows := ReconcileRows(RowsFrom(pageLinks, fromPageId), counts, now);
      pageLinks := pageLinks[fromPageId := rows];
    }

    /**
     * `update`: `page` is the id of the page the reference names, if it
     * exists. The page's rows in all three tables end up as their
     * reconciliation against the counts of its backlinks.
     */
    method Update(siteId: int, page: Option<int>, backlinks: Backlinks, lookup: (int, string) -> Option<int>, now: int)
      returns (r: Result<(), Error>)
      modifies this
      ensures page.None? ==> (r == Err(NotFound) &&
        connections == old(connections) && connectionsMissing == old(connectionsMissing) && pageLinks == old(pageLinks))
      ensures page.Some? ==> (r == Ok(()) &&
        connections == old(connections)[page.value :=
          Reconciled(RowsFrom(old(connections), page.value), Tally(AllPresentKeys(siteId, lookup, backlinks)), now)] &&
        connectionsMissing == old(connectionsMissing)[page.value :=
          Reconciled(RowsFrom(old(connectionsMissing), page.value), Tally(AllMissingKeys(siteId, lookup, backlinks)), now)] &&
        pageLinks == old(pageLinks)[page.value :=
          Reconciled(RowsFrom(old(pageLinks), page.value), Tally(backlinks.externalLinks), now)])
    {
      if page.None? {
        return Err(NotFound);
      }
      var pageId := page.value;
      var counts, countsMissing, externalLinks := CountReferences(siteId, lookup, backlinks);
      UpdateConnections(pageId, counts, now);
      UpdateConnectionsMissing(pageId, countsMissing, now);
      UpdateExternalLinks(pageId, externalLinks, now);
      r := Ok(());
    }

    /**
     * `get_to_missing`: fails with `Exists` when the page exists; otherwise
     * the missing-page rows, over all source pages, that point at the slot.
     */
    function GetToMissing(siteId: int, pageSlug: string, lookup: (int, string) -> Option<int>)
      : (r: Result<set<(int, MissingKey)>, Error>)
      reads this
      ensures r.Err? <==> lookup(siteId, pageSlug).Some?
      ensures r.Err? ==> r.error == Exists
      ensures r.Ok? ==> forall from, key :: (from, key) in r.value ==>
        from in connectionsMissing && key in connectionsMissing[from] && key.0 == siteId && key.1 == pageSlug
      ensures r.Ok? ==> forall from, key ::
        (from in connectionsMissing && key in connectionsMissing[from] && key.0 == siteId && key.1 == pageSlug)
        ==> (from, key) in r.value
    {
      if lookup(siteId, pageSlug).Some? then Err(Exists)
      else Ok(set from, key | from in connectionsMissing && key in connectionsMissing[from]
                && key.0 == siteId && key.1 == pageSlug :: (from, key))
    }
  }
}
