/** Link snapshots with their name and alias indexes, the event filter that
    decides which link notifications may be ignored, and the link guard.
    Netlink decoding is not modelled: everything starts from decoded records. */
module LinkIdentity {
  import opened Amneziawg

  const DUMP_MAX_RECORDS: nat := 65536
  const GUARD_MAX_DRAIN_READS: nat := 256

  /** One decoded link. `alias` is `None` when the link has no alias or one too
      long to be ours; in a notification an empty name means "not sent". */
  datatype LinkRecord = LinkRecord(ifindex: nat, ifname: string, alias: Option<string>)

  datatype LinkObservation = LinkObservation(
    namedExists: bool, namedIfindex: nat,
    tokenMatches: nat, tokenIfindex: nat,
    tokenHasExpectedName: bool, tokenIfname: string)

  datatype Identity = Identity(name: string, token: Option<string>, ifindex: nat)

  const NO_OBSERVATION := LinkObservation(false, 0, 0, 0, false, "")

  // ------------------------------------------------------------------------
  // Linear search over a snapshot: the meaning of an observation
  // ------------------------------------------------------------------------

  function LastNamed(records: seq<LinkRecord>, name: string): (r: Option<nat>)
    ensures r.Some? ==> r.value < |records| && records[r.value].ifname == name
    ensures r.Some? ==> forall j | r.value < j < |records| :: records[j].ifname != name
    ensures r.None? ==> forall j | 0 <= j < |records| :: records[j].ifname != name
  {
    if records == [] then None
    else if records[|records| - 1].ifname == name then Some(|records| - 1)
    else LastNamed(records[..|records| - 1], name)
  }

  function FirstAliased(records: seq<LinkRecord>, alias: string): (r: Option<nat>)
    ensures r.Some? ==> r.value < |records| && records[r.value].alias == Some(alias)
    ensures r.Some? ==> forall j | 0 <= j < r.value :: records[j].alias != Some(alias)
    ensures r.None? ==> forall j | 0 <= j < |records| :: records[j].alias != Some(alias)
  {
    if records == [] then None
    else
      var earlier := FirstAliased(records[..|records| - 1], alias);
      if earlier.Some? then earlier
      else if records[|records| - 1].alias == Some(alias) then Some(|records| - 1)
      else None
  }

  function AliasMatches(records: seq<LinkRecord>, alias: string): (n: nat)
    ensures n <= |records|
    ensures n == 0 <==> FirstAliased(records, alias).None?
  {
    if records == [] then 0
    else
      var last := if records[|records| - 1].alias == Some(alias) then 1 else 0;
      AliasMatches(records[..|records| - 1], alias) + last
  }

  function Observation(records: seq<LinkRecord>, name: string, token: Option<string>): LinkObservation {
    var named := LastNamed(records, name);
    var first := if token.Some? then FirstAliased(records, LinkAlias(token.value)) else None;
    LinkObservation(
      named.Some?,
      if named.Some? then records[named.value].ifindex else 0,
      if token.Some? then AliasMatches(records, LinkAlias(token.value)) else 0,
      if first.Some? then records[first.value].ifindex else 0,
      first.Some? && records[first.value].ifname == name,
      if first.Some? then records[first.value].ifname else "")
  }

  // ------------------------------------------------------------------------
  // The indexed snapshot
  // ------------------------------------------------------------------------

  datatype AliasIndex = AliasIndex(matches: nat, firstIndex: nat)

  ghost predicate NamesIndexed(records: seq<LinkRecord>, names: map<string, nat>) {
    && (forall n :: n in names <==> LastNamed(records, n).Some?)
    && (forall n :: n in names ==> names[n] == LastNamed(records, n).value + 1)
  }

  ghost predicate AliasesIndexed(records: seq<LinkRecord>, aliases: map<string, AliasIndex>) {
    && (forall a :: a in aliases <==> FirstAliased(records, a).Some?)
    && (forall a :: a in aliases ==>
          aliases[a] == AliasIndex(AliasMatches(records, a), FirstAliased(records, a).value))
  }

  /** How one more record at the end changes a linear search. */
  lemma SearchSnoc(records: seq<LinkRecord>, record: LinkRecord, key: string)
    ensures LastNamed(records + [record], key)
         == if record.ifname == key then Some(|records|) else LastNamed(records, key)
    ensures FirstAliased(records + [record], key)
         == if FirstAliased(records, key).None? && record.alias == Some(key) then Some(|records|)
            else FirstAliased(records, key)
    ensures AliasMatches(records + [record], key)
         == AliasMatches(records, key) + (if record.alias == Some(key) then 1 else 0)
  {
    assert (records + [record])[..|records|] == records;
  }

  lemma NamesSnoc(records: seq<LinkRecord>, record: LinkRecord, names: map<string, nat>)
    requires NamesIndexed(records, names)
    ensures NamesIndexed(records + [record], names[record.ifname := |records| + 1])
  {
    forall n {
      SearchSnoc(records, record, n);
    }
  }

  lemma NoMatchYet(records: seq<LinkRecord>, alias: string)
    ensures FirstAliased(records, alias).None? ==> AliasMatches(records, alias) == 0
  {
  }

  lemma AliasesSnoc(records: seq<LinkRecord>, record: LinkRecord,
                    aliases: map<string, AliasIndex>, aliases': map<string, AliasIndex>)
    requires AliasesIndexed(records, aliases)
    requires record.alias.None? ==> aliases' == aliases
    requires record.alias.Some? ==>
               var a := record.alias.value;
               aliases' == aliases[a := if a in aliases then aliases[a].(matches := aliases[a].matches + 1)
                                        else AliasIndex(1, |records|)]
    ensures AliasesIndexed(records + [record], aliases')
  {
    hide LastNamed, FirstAliased, AliasMatches;
    var more := records + [record];
    forall a ensures a in aliases' <==> FirstAliased(more, a).Some? {
      SearchSnoc(records, record, a);
    }
    forall a | a in aliases'
      ensures aliases'[a] == AliasIndex(AliasMatches(more, a), FirstAliased(more, a).value)
    {
      SearchSnoc(records, record, a);
      NoMatchYet(records, a);
    }
  }

  class LinkSnapshot {
    var records: seq<LinkRecord>
    var names: map<string, nat>  // position of the last record with the name, plus one
    var aliases: map<string, AliasIndex>

    ghost predicate Valid()
      reads this
    {
      |records| <= DUMP_MAX_RECORDS && NamesIndexed(records, names) && AliasesIndexed(records, aliases)
    }

    constructor ()
      ensures Valid() && records == []
    {
      records, names, aliases := [], map[], map[];
    }

    /** Adds one record of the dump to the list and to both indexes. */
    method Append(record: LinkRecord) returns (ok: bool)
      requires Valid()
      modifies this
      ensures Valid()
      ensures ok <==> |old(records)| < DUMP_MAX_RECORDS
      ensures records == if ok then old(records) + [record] else old(records)
    {
      ok := |records| < DUMP_MAX_RECORDS;
      if !ok {
        return;
      }
      var index := |records|;
      ghost var before, indexed := records, aliases;
      records := records + [record];
      NamesSnoc(before, record, names);
      names := names[record.ifname := index + 1];
      if record.alias.Some? {
        var alias := record.alias.value;
        if alias !in aliases {
          aliases := aliases[alias := AliasIndex(1, index)];
        } else if aliases[alias].matches != UINT_MAX {
          aliases := aliases[alias := aliases[alias].(matches := aliases[alias].matches + 1)];
        }
      }
      AliasesSnoc(before, record, indexed, aliases);
    }

    /** The indexed lookup answers exactly what a linear search would. */
    method Observe(name: string, token: Option<string>) returns (ok: bool, observation: LinkObservation)
      requires Valid()
      ensures ok <==> NameIsValid(name) && (token.Some? ==> TokenIsValid(token.value))
      ensures ok ==> observation == Observation(records, name, token)
    {
      observation := NO_OBSERVATION;
      ok := NameIsValid(name) && (token.Some? ==> TokenIsValid(token.value));
      if !ok {
        return;
      }
      if name in names {
        var record := records[names[name] - 1];
        observation := observation.(namedExists := true, namedIfindex := record.ifindex);
      }
      if token.Some? {
        var alias := LinkAlias(token.value);
        if alias in aliases {
          var record := records[aliases[alias].firstIndex];
          observation := observation.(
            tokenMatches := aliases[alias].matches,
            tokenIfindex := record.ifindex,
            tokenHasExpectedName := record.ifname == name,
            tokenIfname := record.ifname);
        }
      }
    }
  }

  // ------------------------------------------------------------------------
  // The kernel's link table and its dumps
  // ------------------------------------------------------------------------

  type LinkTable = map<nat, LinkRecord>

  /** Links are keyed by index and no two links share a name. */
  ghost predicate TableValid(t: LinkTable) {
    && (forall i :: i in t ==> t[i].ifindex == i && t[i].ifname != "")
    && (forall i, j :: i in t && j in t && t[i].ifname == t[j].ifname ==> i == j)
  }

  /** `records` lists every link of `t` exactly once, in any order. */
  ghost predicate IsDump(records: seq<LinkRecord>, t: LinkTable) {
    && (forall k | 0 <= k < |records| :: records[k].ifindex in t && t[records[k].ifindex] == records[k])
    && (forall i :: i in t ==> exists k :: 0 <= k < |records| && records[k].ifindex == i)
    && (forall j, k | 0 <= j < k < |records| :: records[j].ifindex != records[k].ifindex)
  }

  /** Equal but for which of several duplicate aliases was listed first. */
  predicate SameObservation(a: LinkObservation, b: LinkObservation) {
    && a.namedExists == b.namedExists
    && a.namedIfindex == b.namedIfindex
    && a.tokenMatches == b.tokenMatches
    && (a.tokenMatches <= 1 ==> a == b)
  }

  ghost function AliasHolders(t: LinkTable, alias: string): set<nat> {
    set i | i in t && t[i].alias == Some(alias)
  }

  function IndicesWithAlias(records: seq<LinkRecord>, alias: string): set<nat> {
    set k | 0 <= k < |records| && records[k].alias == Some(alias) :: records[k].ifindex
  }

  lemma IndicesSnoc(records: seq<LinkRecord>, i: nat, alias: string)
    requires i < |records|
    ensures IndicesWithAlias(records[..i + 1], alias)
         == IndicesWithAlias(records[..i], alias)
            + (if records[i].alias == Some(alias) then {records[i].ifindex} else {})
  {
    var prefix := records[..i + 1];
    assert prefix[i] == records[i] && forall k | 0 <= k < i :: prefix[k] == records[..i][k];
  }

  /** Where no two records share an index, matches and matching links are as many. */
  lemma {:induction false} AliasMatchesCounts(records: seq<LinkRecord>, alias: string)
    requires forall j, k | 0 <= j < k < |records| :: records[j].ifindex != records[k].ifindex
    ensures AliasMatches(records, alias) == |IndicesWithAlias(records, alias)|
  {
    if records != [] {
      var last := records[|records| - 1];
      var before := records[..|records| - 1];
      AliasMatchesCounts(before, alias);
      assert records[..|records|] == records;
      IndicesSnoc(records, |records| - 1, alias);
      assert last.ifindex !in IndicesWithAlias(before, alias);
    }
  }

  lemma DumpCountsHolders(records: seq<LinkRecord>, t: LinkTable, alias: string)
    requires IsDump(records, t)
    ensures AliasMatches(records, alias) == |AliasHolders(t, alias)|
  {
    AliasMatchesCounts(records, alias);
    forall i | i in AliasHolders(t, alias)
      ensures i in IndicesWithAlias(records, alias)
    {
      var k :| 0 <= k < |records| && records[k].ifindex == i;
    }
    assert AliasHolders(t, alias) == IndicesWithAlias(records, alias);
  }

  predicate Matches(r: LinkRecord, name: string, token: Option<string>) {
    r.ifname == name || (token.Some? && r.alias == Some(LinkAlias(token.value)))
  }

  /** The part of the link table an observation can depend on. */
  ghost function Matching(t: LinkTable, name: string, token: Option<string>): LinkTable {
    map i | i in t && Matches(t[i], name, token) :: t[i]
  }

  lemma NamedFromMatching(d1: seq<LinkRecord>, t1: LinkTable, d2: seq<LinkRecord>, t2: LinkTable,
                          name: string, token: Option<string>)
    requires TableValid(t1) && TableValid(t2) && IsDump(d1, t1) && IsDump(d2, t2)
    requires Matching(t1, name, token) == Matching(t2, name, token)
    requires LastNamed(d1, name).Some?
    ensures LastNamed(d2, name).Some?
    ensures d1[LastNamed(d1, name).value] == d2[LastNamed(d2, name).value]
  {
    var r := d1[LastNamed(d1, name).value];
    assert r.ifindex in Matching(t1, name, token);
    assert t2[r.ifindex] == r;
    var k :| 0 <= k < |d2| && d2[k].ifindex == r.ifindex;
    assert d2[k] == r;
  }

  lemma HoldersFromMatching(t1: LinkTable, t2: LinkTable, name: string, token: string)
    requires Matching(t1, name, Some(token)) == Matching(t2, name, Some(token))
    ensures AliasHolders(t1, LinkAlias(token)) == AliasHolders(t2, LinkAlias(token))
  {
    var m1, m2 := Matching(t1, name, Some(token)), Matching(t2, name, Some(token));
    forall i | i in AliasHolders(t1, LinkAlias(token)) ensures i in AliasHolders(t2, LinkAlias(token)) {
      assert i in m1 && m1[i] == t1[i] && m2[i] == t2[i];
    }
    forall i | i in AliasHolders(t2, LinkAlias(token)) ensures i in AliasHolders(t1, LinkAlias(token)) {
      assert i in m2 && m1[i] == t1[i] && m2[i] == t2[i];
    }
  }

  lemma SoleHolder(d: seq<LinkRecord>, t: LinkTable, alias: string, i: nat)
    requires IsDump(d, t) && AliasHolders(t, alias) == {i}
    ensures FirstAliased(d, alias).Some? && d[FirstAliased(d, alias).value] == t[i]
  {
    assert i in AliasHolders(t, alias);
    var k :| 0 <= k < |d| && d[k].ifindex == i;
    assert d[k] == t[i];
    var first := FirstAliased(d, alias).value;
    assert d[first].ifindex in AliasHolders(t, alias);
  }

  lemma HoldersAgree(d1: seq<LinkRecord>, t1: LinkTable, d2: seq<LinkRecord>, t2: LinkTable, name: string,
                     token: string)
    requires IsDump(d1, t1) && IsDump(d2, t2) && Matching(t1, name, Some(token)) == Matching(t2, name, Some(token))
    ensures AliasMatches(d1, LinkAlias(token)) == AliasMatches(d2, LinkAlias(token))
    ensures AliasMatches(d1, LinkAlias(token)) == 1 ==>
              d1[FirstAliased(d1, LinkAlias(token)).value] == d2[FirstAliased(d2, LinkAlias(token)).value]
  {
    var alias := LinkAlias(token);
    HoldersFromMatching(t1, t2, name, token);
    DumpCountsHolders(d1, t1, alias);
    DumpCountsHolders(d2, t2, alias);
    var holders := AliasHolders(t1, alias);
    if |holders| == 1 {
      var i :| i in holders;
      assert holders == {i} by {
        assert |holders - {i}| == 0;
      }
      SoleHolder(d1, t1, alias, i);
      SoleHolder(d2, t2, alias, i);
      assert Matching(t1, name, Some(token))[i] == t1[i] && Matching(t2, name, Some(token))[i] == t2[i];
    }
  }

  /** An observation is a function of the matching links alone, whatever order
      the kernel lists them in (up to the choice among duplicate aliases). */
  lemma ObservationFromMatching(d1: seq<LinkRecord>, t1: LinkTable, d2: seq<LinkRecord>, t2: LinkTable,
                                name: string, token: Option<string>)
    requires TableValid(t1) && TableValid(t2) && IsDump(d1, t1) && IsDump(d2, t2)
    requires Matching(t1, name, token) == Matching(t2, name, token)
    ensures SameObservation(Observation(d1, name, token), Observation(d2, name, token))
  {
    if LastNamed(d1, name).Some? {
      NamedFromMatching(d1, t1, d2, t2, name, token);
    } else if LastNamed(d2, name).Some? {
      NamedFromMatching(d2, t2, d1, t1, name, token);
    }
    if token.Some? {
      HoldersAgree(d1, t1, d2, t2, name, token.value);
    }
  }

  /** `records` lists links in one fixed order of their indices. */
  ghost predicate ListedBy(records: seq<LinkRecord>, order: nat -> int) {
    forall j, k | 0 <= j < k < |records| :: order(records[j].ifindex) < order(records[k].ifindex)
  }

  lemma HolderListed(d1: seq<LinkRecord>, t1: LinkTable, d2: seq<LinkRecord>, t2: LinkTable, name: string,
                     token: string)
    returns (k: nat)
    requires IsDump(d1, t1) && IsDump(d2, t2) && Matching(t1, name, Some(token)) == Matching(t2, name, Some(token))
    requires FirstAliased(d1, LinkAlias(token)).Some?
    ensures k < |d2| && d2[k] == d1[FirstAliased(d1, LinkAlias(token)).value]
    ensures FirstAliased(d2, LinkAlias(token)).Some? && FirstAliased(d2, LinkAlias(token)).value <= k
  {
    var r := d1[FirstAliased(d1, LinkAlias(token)).value];
    assert r.ifindex in Matching(t1, name, Some(token));
    assert t2[r.ifindex] == r;
    k :| 0 <= k < |d2| && d2[k].ifindex == r.ifindex;
    assert d2[k] == r;
  }

  lemma FirstInOrder(d1: seq<LinkRecord>, t1: LinkTable, d2: seq<LinkRecord>, t2: LinkTable,
                     name: string, token: string, order: nat -> int)
    requires IsDump(d1, t1) && IsDump(d2, t2) && Matching(t1, name, Some(token)) == Matching(t2, name, Some(token))
    requires ListedBy(d1, order) && ListedBy(d2, order) && FirstAliased(d1, LinkAlias(token)).Some?
    ensures FirstAliased(d2, LinkAlias(token)).Some?
    ensures d1[FirstAliased(d1, LinkAlias(token)).value] == d2[FirstAliased(d2, LinkAlias(token)).value]
  {
    hide IsDump, Matching, FirstAliased;
    var k2 := HolderListed(d1, t1, d2, t2, name, token);
    var k1 := HolderListed(d2, t2, d1, t1, name, token);
    var f1, f2 := FirstAliased(d1, LinkAlias(token)).value, FirstAliased(d2, LinkAlias(token)).value;
    if f1 < k1 && f2 < k2 {
      assert false;
    }
  }

  /** Listed in one fixed order, duplicates leave no choice either: the same matching
      links give the very same observation. */
  lemma ObservationFromOrder(d1: seq<LinkRecord>, t1: LinkTable, d2: seq<LinkRecord>, t2: LinkTable,
                             name: string, token: Option<string>, order: nat -> int)
    requires TableValid(t1) && TableValid(t2) && IsDump(d1, t1) && IsDump(d2, t2)
    requires Matching(t1, name, token) == Matching(t2, name, token)
    requires ListedBy(d1, order) && ListedBy(d2, order)
    ensures Observation(d1, name, token) == Observation(d2, name, token)
  {
    hide IsDump, Matching, ListedBy, TableValid, LastNamed, FirstAliased, AliasMatches;
    ObservationFromMatching(d1, t1, d2, t2, name, token);
    if token.Some? {
      if FirstAliased(d1, LinkAlias(token.value)).Some? {
        FirstInOrder(d1, t1, d2, t2, name, token.value, order);
      }
    }
  }

  // ------------------------------------------------------------------------
  // Link notifications
  // ------------------------------------------------------------------------

  /** One message of a datagram. `Untrusted` stands for everything that cannot be
      decoded: dump interruptions, other message types, malformed attributes and
      trailing bytes. */
  datatype LinkMessage =
    | LinkEvent(deleted: bool, record: LinkRecord)
    | Noop
    | Untrusted

  type Datagram = seq<LinkMessage>

  /** What the kernel may do to its table when it sends a message. A notification
      that omits the name leaves it alone; one that shows no alias of ours leaves
      the alias alone or takes it away; a deletion may also be a partial one. */
  ghost predicate Effect(t: LinkTable, m: LinkMessage, t': LinkTable) {
    match m
    case Noop => t' == t
    case Untrusted => true
    case LinkEvent(true, r) => t' == t || t' == t - {r.ifindex}
    case LinkEvent(false, r) =>
      && r.ifindex in t'
      && t' == t[r.ifindex := t'[r.ifindex]]
      && (if r.ifname != "" then t'[r.ifindex].ifname == r.ifname
          else r.ifindex in t && t'[r.ifindex].ifname == t[r.ifindex].ifname)
      && (r.alias.Some? ==> t'[r.ifindex].alias == r.alias)
      && (r.alias.None? ==>
            t'[r.ifindex].alias == None || (r.ifindex in t && t'[r.ifindex].alias == t[r.ifindex].alias))
  }

  /** `path` is a history of the table, one step per message. */
  ghost predicate History(path: seq<LinkTable>, messages: seq<LinkMessage>) {
    && |path| == |messages| + 1
    && (forall k | 0 <= k < |path| :: TableValid(path[k]))
    && (forall k | 0 <= k < |messages| :: Effect(path[k], messages[k], path[k + 1]))
  }

  // ------------------------------------------------------------------------
  // The event filter
  // ------------------------------------------------------------------------

  datatype LinkFilter = LinkFilter(names: set<string>, aliases: set<string>, indices: set<nat>)

  const EMPTY_FILTER := LinkFilter({}, {}, {})

  predicate MessageRelevant(f: LinkFilter, m: LinkMessage) {
    match m
    case Noop => false
    case Untrusted => true
    case LinkEvent(_, r) =>
      r.ifindex in f.indices || r.ifname in f.names || (r.alias.Some? && r.alias.value in f.aliases)
  }

  predicate DatagramRelevant(f: LinkFilter, d: Datagram) {
    d == [] || exists k | 0 <= k < |d| :: MessageRelevant(f, d[k])
  }

  /** A filter extended by one identity, in terms of the listed links only. */
  function FilterAdd(f: LinkFilter, snapshot: Option<seq<LinkRecord>>, identity: Identity): LinkFilter {
    var alias := AliasOf(identity.token);
    var records := if snapshot.Some? then snapshot.value else [];
    var named := LastNamed(records, identity.name);
    LinkFilter(
      f.names + {identity.name},
      f.aliases + (if alias.Some? then {alias.value} else {}),
      f.indices
        + (if identity.ifindex != 0 then {identity.ifindex} else {})
        + (if named.Some? then {records[named.value].ifindex} else {})
        + (if alias.Some? then IndicesWithAlias(records, alias.value) else {}))
  }

  lemma NoneCarry(token: Option<string>)
    ensures AliasOf(token).Some? ==> IndicesWithAlias([], AliasOf(token).value) == {}
    ensures forall name :: LastNamed([], name) == None
  {
  }

  class EventFilter {
    var names: set<string>
    var aliases: set<string>
    var indices: set<nat>

    function View(): LinkFilter
      reads this
    {
      LinkFilter(names, aliases, indices)
    }

    constructor ()
      ensures View() == EMPTY_FILTER
    {
      names, aliases, indices := {}, {}, {};
    }

    method Add(snapshot: LinkSnapshot?, identity: Identity)
      requires snapshot != null ==> snapshot.Valid()
      requires NameIsValid(identity.name) && (identity.token.Some? ==> TokenIsValid(identity.token.value))
      modifies this
      ensures View() == FilterAdd(old(View()), if snapshot != null then Some(snapshot.records) else None, identity)
    {
      hide NamesIndexed, AliasesIndexed, LastNamed, IndicesWithAlias;
      var alias := AliasOf(identity.token);
      names := names + {identity.name};
      if identity.ifindex != 0 {
        indices := indices + {identity.ifindex};
      }
      if alias.Some? {
        aliases := aliases + {alias.value};
      }
      if snapshot == null {
        NoneCarry(identity.token);
        return;
      }
      TrackNamed(snapshot, identity.name);
      if alias.Some? {
        TrackAlias(snapshot, alias.value);
      }
    }

    /** Tracks the link the snapshot lists under a name. */
    method TrackNamed(snapshot: LinkSnapshot, name: string)
      requires snapshot.Valid()
      modifies this`indices
      ensures var named := LastNamed(snapshot.records, name);
              indices == old(indices) + if named.Some? then {snapshot.records[named.value].ifindex} else {}
    {
      if name in snapshot.names {
        indices := indices + {snapshot.records[snapshot.names[name] - 1].ifindex};
      }
    }

    /** Tracks every link carrying the alias: none, the indexed one, or all of
        several duplicates. */
    method TrackAlias(snapshot: LinkSnapshot, alias: string)
      requires snapshot.Valid()
      modifies this`indices
      ensures indices == old(indices) + IndicesWithAlias(snapshot.records, alias)
    {
      if alias !in snapshot.aliases {
        assert IndicesWithAlias(snapshot.records, alias) == {};
        return;
      }
      var aliasIndex := snapshot.aliases[alias];
      if aliasIndex.matches == 1 {
        SingleMatch(snapshot.records, alias);
        indices := indices + {snapshot.records[aliasIndex.firstIndex].ifindex};
        return;
      }
      for i := 0 to |snapshot.records|
        invariant indices == old(indices) + IndicesWithAlias(snapshot.records[..i], alias)
      {
        IndicesSnoc(snapshot.records, i, alias);
        if snapshot.records[i].alias == Some(alias) {
          indices := indices + {snapshot.records[i].ifindex};
        }
      }
      assert snapshot.records[..|snapshot.records|] == snapshot.records;
    }

    method IsRelevant(datagram: Datagram) returns (relevant: bool)
      ensures relevant == DatagramRelevant(View(), datagram)
    {
      if datagram == [] {
        return true;
      }
      for i := 0 to |datagram|
        invariant forall k | 0 <= k < i :: !MessageRelevant(View(), datagram[k])
      {
        match datagram[i]
        case Noop =>
        case Untrusted => return true;
        case LinkEvent(_, record) =>
          if record.ifindex in indices || record.ifname in names ||
             (record.alias.Some? && record.alias.value in aliases) {
            assert MessageRelevant(View(), datagram[i]);
            return true;
          }
      }
      return false;
    }
  }

  /** With a single match, the first match is the only one: why the alias index
      may be used instead of a scan. */
  lemma {:induction false} SingleMatch(records: seq<LinkRecord>, alias: string)
    requires AliasMatches(records, alias) == 1
    ensures IndicesWithAlias(records, alias) == {records[FirstAliased(records, alias).value].ifindex}
  {
    var before := records[..|records| - 1];
    if records[|records| - 1].alias == Some(alias) {
      assert FirstAliased(before, alias).None?;
    } else {
      SingleMatch(before, alias);
      assert IndicesWithAlias(records, alias) == IndicesWithAlias(before, alias);
    }
  }

  // ------------------------------------------------------------------------
  // Soundness of the filter over runs
  // ------------------------------------------------------------------------

  predicate Tracks(f: LinkFilter, r: LinkRecord) {
    r.ifname in f.names || (r.alias.Some? && r.alias.value in f.aliases)
  }

  ghost function Tracked(f: LinkFilter, t: LinkTable): LinkTable {
    map i | i in t && Tracks(f, t[i]) :: t[i]
  }

  /** Every link the filter has an interest in is known by its index. */
  ghost predicate Covers(f: LinkFilter, t: LinkTable) {
    forall i :: i in t && Tracks(f, t[i]) ==> i in f.indices
  }

  /** The filter a scan builds: every identity added against one snapshot. */
  function FilterOf(identities: seq<Identity>, snapshot: Option<seq<LinkRecord>>): LinkFilter {
    if identities == [] then EMPTY_FILTER
    else FilterAdd(FilterOf(identities[..|identities| - 1], snapshot), snapshot, identities[|identities| - 1])
  }

  lemma {:induction false} FilterOfCovers(identities: seq<Identity>, records: seq<LinkRecord>, t: LinkTable)
    requires TableValid(t) && IsDump(records, t)
    ensures Covers(FilterOf(identities, Some(records)), t)
  {
    if identities != [] {
      var f := FilterOf(identities[..|identities| - 1], Some(records));
      var last := identities[|identities| - 1];
      FilterOfCovers(identities[..|identities| - 1], records, t);
      var f' := FilterAdd(f, Some(records), last);
      forall i | i in t && Tracks(f', t[i]) ensures i in f'.indices {
        var k :| 0 <= k < |records| && records[k].ifindex == i;
        if !Tracks(f, t[i]) && t[i].ifname == last.name {
          var named := LastNamed(records, last.name);
          assert records[k].ifname == last.name;
          assert t[records[named.value].ifindex].ifname == t[i].ifname;
        }
      }
    }
  }

  lemma {:induction false} FilterOfKnows(identities: seq<Identity>, snapshot: Option<seq<LinkRecord>>, k: nat)
    requires k < |identities|
    ensures identities[k].name in FilterOf(identities, snapshot).names
    ensures identities[k].token.Some? ==>
              LinkAlias(identities[k].token.value) in FilterOf(identities, snapshot).aliases
  {
    if k < |identities| - 1 {
      FilterOfKnows(identities[..|identities| - 1], snapshot, k);
    }
  }

  lemma IrrelevantStep(f: LinkFilter, t: LinkTable, m: LinkMessage, t': LinkTable)
    requires TableValid(t) && TableValid(t') && Effect(t, m, t') && Covers(f, t) && !MessageRelevant(f, m)
    ensures Tracked(f, t') == Tracked(f, t)
    ensures Covers(f, t')
  {
    if m.LinkEvent? {
      var i := m.record.ifindex;
      OnlyOneChanges(t, m, t');
      assert i in t ==> !Tracks(f, t[i]);
      assert i in t' ==> !Tracks(f, t'[i]);
      SameTracked(f, t, t', i);
    }
  }

  lemma OnlyOneChanges(t: LinkTable, m: LinkMessage, t': LinkTable)
    requires Effect(t, m, t') && m.LinkEvent?
    ensures SameBut(t, t', m.record.ifindex)
  {
  }

  /** Two tables that differ at most at one index. */
  ghost predicate SameBut(t: LinkTable, t': LinkTable, i: nat) {
    forall j :: j != i ==> (j in t <==> j in t') && (j in t ==> t[j] == t'[j])
  }

  lemma SameTracked(f: LinkFilter, t: LinkTable, t': LinkTable, i: nat)
    requires SameBut(t, t', i) && (i in t ==> !Tracks(f, t[i])) && (i in t' ==> !Tracks(f, t'[i]))
    ensures Tracked(f, t') == Tracked(f, t)
    ensures Covers(f, t) ==> Covers(f, t')
  {
    hide Tracks;
  }

  lemma {:induction false} IrrelevantRun(f: LinkFilter, path: seq<LinkTable>, messages: seq<LinkMessage>)
    requires History(path, messages) && Covers(f, path[0])
    requires forall k | 0 <= k < |messages| :: !MessageRelevant(f, messages[k])
    ensures Tracked(f, path[|messages|]) == Tracked(f, path[0])
    ensures Covers(f, path[|messages|])
  {
    if messages != [] {
      var n := |messages| - 1;
      assert History(path[..n + 1], messages[..n]);
      IrrelevantRun(f, path[..n + 1], messages[..n]);
      IrrelevantStep(f, path[n], messages[n], path[n + 1]);
    }
  }

  lemma MatchIsTracked(f: LinkFilter, t1: LinkTable, t2: LinkTable, name: string, token: Option<string>, i: nat)
    requires Tracked(f, t1) == Tracked(f, t2)
    requires name in f.names && (token.Some? ==> LinkAlias(token.value) in f.aliases)
    requires i in t1 && Matches(t1[i], name, token)
    ensures i in t2 && t2[i] == t1[i]
  {
    hide LinkAlias;
    assert Tracks(f, t1[i]);
    assert i in Tracked(f, t1) && Tracked(f, t1)[i] == t1[i];
    assert i in Tracked(f, t2) && Tracked(f, t2)[i] == t1[i];
  }

  /** What is tracked decides what is observed for every known identity. */
  lemma MatchingFromTracked(f: LinkFilter, t1: LinkTable, t2: LinkTable, name: string, token: Option<string>)
    requires Tracked(f, t1) == Tracked(f, t2)
    requires name in f.names && (token.Some? ==> LinkAlias(token.value) in f.aliases)
    ensures Matching(t1, name, token) == Matching(t2, name, token)
  {
    var m1, m2 := Matching(t1, name, token), Matching(t2, name, token);
    forall i | i in m1 ensures i in m2 && m2[i] == m1[i] {
      MatchIsTracked(f, t1, t2, name, token, i);
    }
    forall i | i in m2 ensures i in m1 {
      MatchIsTracked(f, t2, t1, name, token, i);
    }
    assert m1 == m2;
  }

  /** Filter soundness: once every identity was added against a snapshot, any run
      of notifications that are all called irrelevant leaves the observation of
      every added identity as it was, through renames, duplicate aliases and
      partial notifications. Which of several duplicates an observation shows is the
      first one listed, so for those it takes a kernel that keeps to one order. */
  lemma FilterSoundness(identities: seq<Identity>, before: seq<LinkRecord>, path: seq<LinkTable>,
                        messages: seq<LinkMessage>, after: seq<LinkRecord>, k: nat, order: nat -> int)
    requires k < |identities|
    requires History(path, messages) && IsDump(before, path[0]) && IsDump(after, path[|messages|])
    requires forall j | 0 <= j < |messages| :: !MessageRelevant(FilterOf(identities, Some(before)), messages[j])
    ensures var first := Observation(before, identities[k].name, identities[k].token);
            var last := Observation(after, identities[k].name, identities[k].token);
            && SameObservation(first, last)
            && (ListedBy(before, order) && ListedBy(after, order) ==> first == last)
  {
    var f := FilterOf(identities, Some(before));
    FilterOfCovers(identities, before, path[0]);
    IrrelevantRun(f, path, messages);
    FilterOfKnows(identities, Some(before), k);
    MatchingFromTracked(f, path[0], path[|messages|], identities[k].name, identities[k].token);
    ObservationFromMatching(before, path[0], after, path[|messages|], identities[k].name, identities[k].token);
    if ListedBy(before, order) && ListedBy(after, order) {
      ObservationFromOrder(before, path[0], after, path[|messages|], identities[k].name, identities[k].token, order);
    }
  }

  /** Without the index set the same claim is false: a rename away from a watched
      name is announced under the new name only. */
  lemma IndicesAreNeeded()
    ensures var f := LinkFilter({"awg0"}, {}, {});
            var t := map[7 := LinkRecord(7, "awg0", None)];
            var t' := map[7 := LinkRecord(7, "wan", None)];
            var m := LinkEvent(false, LinkRecord(7, "wan", None));
            && TableValid(t) && TableValid(t') && Effect(t, m, t') && !MessageRelevant(f, m)
            && IsDump([t[7]], t) && IsDump([t'[7]], t')
            && Observation([t[7]], "awg0", None).namedExists
            && !Observation([t'[7]], "awg0", None).namedExists
  {
    var t := map[7 := LinkRecord(7, "awg0", None)];
    var t' := map[7 := LinkRecord(7, "wan", None)];
    assert [t[7]][0].ifindex == 7 && [t'[7]][0].ifindex == 7;
    assert t' == t[7 := t'[7]];
  }

  // ------------------------------------------------------------------------
  // The link guard
  // ------------------------------------------------------------------------

  predicate RecordRelevant(r: LinkRecord, identity: LinkRecord) {
    r.ifindex == identity.ifindex || r.ifname == identity.ifname || (r.alias.Some? && r.alias == identity.alias)
  }

  predicate RecordMatches(r: LinkRecord, identity: LinkRecord) {
    r.ifindex == identity.ifindex && r.ifname == identity.ifname && r.alias.Some? && r.alias == identity.alias
  }

  /** The guard requires a name in every notification it reads. */
  predicate GuardAccepts(m: LinkMessage, identity: LinkRecord) {
    match m
    case Noop => true
    case Untrusted => false
    case LinkEvent(deleted, r) =>
      r.ifname != "" && (RecordRelevant(r, identity) ==> !deleted && RecordMatches(r, identity))
  }

  /** One receive call: data, an interruption, an empty queue, or any failure,
      expired deadlines and cancellation included. */
  datatype ReadResult = Received(messages: Datagram) | Interrupted | Empty | Failed

  /** Exactly the reads a drain survives: within the budget it reaches an empty
      queue after nothing but acceptable messages. */
  predicate DrainSucceeds(results: seq<ReadResult>, budget: nat, identity: LinkRecord)
    decreases budget
  {
    && budget > 0 && results != []
    && match results[0]
       case Empty => true
       case Failed => false
       case Interrupted => DrainSucceeds(results[1..], budget - 1, identity)
       case Received(d) =>
         && (forall k | 0 <= k < |d| :: GuardAccepts(d[k], identity))
         && DrainSucceeds(results[1..], budget - 1, identity)
  }

  predicate SnapshotAccepted(records: seq<LinkRecord>, identity: LinkRecord) {
    && (exists k | 0 <= k < |records| :: RecordMatches(records[k], identity))
    && (forall k | 0 <= k < |records| && RecordRelevant(records[k], identity) :: RecordMatches(records[k], identity))
    && (forall j, k | 0 <= j < k < |records| ::
          !(RecordMatches(records[j], identity) && RecordMatches(records[k], identity)))
  }

  class LinkGuard {
    const identity: LinkRecord
    var open: bool

    constructor (identity: Identity)
      requires NameIsValid(identity.name) && identity.token.Some? && TokenIsValid(identity.token.value)
      requires identity.ifindex > 0
      ensures open
      ensures this.identity == LinkRecord(identity.ifindex, identity.name, Some(LinkAlias(identity.token.value)))
    {
      this.identity := LinkRecord(identity.ifindex, identity.name, AliasOf(identity.token));
      open := true;
    }

    method Drain(results: seq<ReadResult>) returns (ok: bool)
      ensures ok == DrainSucceeds(results, GUARD_MAX_DRAIN_READS, identity)
    {
      var rest := results;
      var budget := GUARD_MAX_DRAIN_READS;
      while budget > 0 && rest != []
        invariant DrainSucceeds(results, GUARD_MAX_DRAIN_READS, identity) == DrainSucceeds(rest, budget, identity)
        decreases budget
      {
        match rest[0] {
          case Empty => return true;
          case Failed => return false;
          case Interrupted =>
          case Received(d) =>
            for k := 0 to |d|
              invariant forall j | 0 <= j < k :: GuardAccepts(d[j], identity)
            {
              if !GuardAccepts(d[k], identity) {
                return false;
              }
            }
        }
        rest, budget := rest[1..], budget - 1;
      }
      return false;
    }

    /** Drain, read a fresh snapshot, drain again; any failure closes the guard
        for good. */
    method Check(first: seq<ReadResult>, snapshot: Option<seq<LinkRecord>>, second: seq<ReadResult>)
      returns (ok: bool)
      modifies this`open
      ensures ok == open
      ensures open == (old(open)
                       && DrainSucceeds(first, GUARD_MAX_DRAIN_READS, identity)
                       && snapshot.Some? && SnapshotAccepted(snapshot.value, identity)
                       && DrainSucceeds(second, GUARD_MAX_DRAIN_READS, identity))
    {
      if !open {
        return false;
      }
      var drained := Drain(first);
      if !drained || snapshot.None? {
        open := false;
        return false;
      }
      var records := snapshot.value;
      var matches := 0;
      var at := 0;
      for i := 0 to |records|
        invariant matches <= 1 && open
        invariant forall k | 0 <= k < i && RecordRelevant(records[k], identity) :: RecordMatches(records[k], identity)
        invariant matches == 0 ==> forall k | 0 <= k < i :: !RecordMatches(records[k], identity)
        invariant matches == 1 ==> at < i && RecordMatches(records[at], identity)
        invariant matches == 1 ==> forall k | 0 <= k < i && k != at :: !RecordMatches(records[k], identity)
      {
        if RecordRelevant(records[i], identity) {
          if !RecordMatches(records[i], identity) || matches == 1 {
            assert matches == 1 && RecordMatches(records[i], identity) ==>
                RecordMatches(records[at], identity) && at < i;
            open := false;
            return false;
          }
          matches, at := 1, i;
        }
      }
      if matches != 1 {
        open := false;
        return false;
      }
      drained := Drain(second);
      open := drained;
      return drained;
    }
  }

  const G_MAXINT: nat := 0x7FFF_FFFF

  predicate IsGuardable(identity: Identity) {
    NameIsValid(identity.name) && identity.token.Some? && TokenIsValid(identity.token.value)
    && 0 < identity.ifindex <= G_MAXINT
  }

  /** A guard is only handed out once its first check has passed. `ready` stands for
      time left, no cancellation, and a socket that opens and binds. */
  method NewGuard(identity: Identity, ready: bool, first: seq<ReadResult>, snapshot: Option<seq<LinkRecord>>,
                  second: seq<ReadResult>)
    returns (guard: LinkGuard?)
    ensures guard != null ==>
              fresh(guard) && guard.open
              && guard.identity == LinkRecord(identity.ifindex, identity.name, AliasOf(identity.token))
    ensures guard != null
        <==> && IsGuardable(identity) && ready
             && var link := LinkRecord(identity.ifindex, identity.name, AliasOf(identity.token));
                && DrainSucceeds(first, GUARD_MAX_DRAIN_READS, link)
                && snapshot.Some? && SnapshotAccepted(snapshot.value, link)
                && DrainSucceeds(second, GUARD_MAX_DRAIN_READS, link)
  {
    hide DrainSucceeds, SnapshotAccepted;
    guard := null;
    if !IsGuardable(identity) || !ready {
      return;
    }
    var created := new LinkGuard(identity);
    var ok := created.Check(first, snapshot, second);
    if ok {
      guard := created;
    }
  }

  /** Exactly one link concerns the guarded identity, and it is that identity. */
  ghost predicate Owned(t: LinkTable, identity: LinkRecord) {
    && identity.ifindex in t && t[identity.ifindex] == identity
    && forall i :: i in t && RecordRelevant(t[i], identity) ==> i == identity.ifindex
  }

  lemma AcceptedSnapshotIsOwned(records: seq<LinkRecord>, t: LinkTable, identity: LinkRecord)
    requires TableValid(t) && IsDump(records, t)
    ensures SnapshotAccepted(records, identity) && identity.alias.Some? <==> Owned(t, identity) && identity.alias.Some?
  {
    if SnapshotAccepted(records, identity) && identity.alias.Some? {
      forall i | i in t && RecordRelevant(t[i], identity) ensures i == identity.ifindex {
        var k :| 0 <= k < |records| && records[k].ifindex == i;
        assert t[i] == records[k];
      }
    }
    if Owned(t, identity) && identity.alias.Some? {
      var k :| 0 <= k < |records| && records[k].ifindex == identity.ifindex;
      assert RecordMatches(records[k], identity);
    }
  }

  /** Continuity: from a table in which the identity is owned, every history of
      accepted notifications keeps it owned at each of its moments. */
  lemma {:induction false} GuardContinuity(path: seq<LinkTable>, messages: seq<LinkMessage>, identity: LinkRecord,
                                           k: nat)
    requires History(path, messages) && k <= |messages|
    requires identity.alias.Some? && identity.ifname != "" && Owned(path[0], identity)
    requires forall j | 0 <= j < |messages| :: GuardAccepts(messages[j], identity)
    ensures Owned(path[k], identity)
  {
    if k > 0 {
      GuardContinuity(path, messages, identity, k - 1);
      var t, m, t' := path[k - 1], messages[k - 1], path[k];
      assert Effect(t, m, t');
      if m.LinkEvent? {
        var i := m.record.ifindex;
        assert forall j :: j != i ==> (j in t <==> j in t') && (j in t ==> t[j] == t'[j]);
      }
    }
  }

  /** An accepted snapshot shows one link with the token, and it is the named one. */
  lemma GuardMeansOneMatch(records: seq<LinkRecord>, t: LinkTable, name: string, token: string, ifindex: nat)
    requires TableValid(t) && IsDump(records, t)
    requires SnapshotAccepted(records, LinkRecord(ifindex, name, Some(LinkAlias(token))))
    ensures Observation(records, name, Some(token)) == LinkObservation(true, ifindex, 1, ifindex, true, name)
  {
    var identity := LinkRecord(ifindex, name, Some(LinkAlias(token)));
    AcceptedSnapshotIsOwned(records, t, identity);
    DumpCountsHolders(records, t, LinkAlias(token));
    assert ifindex in AliasHolders(t, LinkAlias(token));
    forall i | i in AliasHolders(t, LinkAlias(token)) ensures i == ifindex {
      assert RecordRelevant(t[i], identity);
    }
    assert AliasHolders(t, LinkAlias(token)) == {ifindex};
    var at :| 0 <= at < |records| && records[at].ifindex == ifindex;
    assert records[at] == identity;
    var last := LastNamed(records, name);
    assert RecordRelevant(records[last.value], identity);
    var first := FirstAliased(records, LinkAlias(token));
    assert RecordRelevant(records[first.value], identity);
  }
}
