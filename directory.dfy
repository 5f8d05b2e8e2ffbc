/**
 * The agent directory of api_server.py: media profiles and user profiles keyed by
 * id, in the order they were loaded, with the lookup by id or name and the
 * default press-conference line-up.
 */
module Directory {
  import opened Wrappers
  import opened Text
  import OrderedMap
  import opened Profiles

  // ---------------------------------------------------------------- fuzzy matching

  /** The characters the fuzzy lookup ignores. */
  const CleanDropped: set<char> := {'《', '》', ' '}

  /** Lowercase, then drop 《, 》 and spaces (and nothing else). */
  function Clean(s: string): string {
    Without(Lower(s), CleanDropped)
  }

  /** A cleaned string has no ASCII capital and none of the dropped characters, and
      keeps every other character that was not an ASCII capital. */
  lemma CleanSpec(s: string)
    ensures NoAsciiUpper(Clean(s))
    ensures forall c | c in CleanDropped :: c !in Clean(s)
    ensures forall c | c in s && c !in CleanDropped && !IsAsciiUpper(c) :: c in Clean(s)
  {
    var lowered := Lower(s);
    var r := Clean(s);
    forall i | 0 <= i < |r| ensures !IsAsciiUpper(r[i]) {
      assert r[i] in lowered;
    }
    forall c | c in s && c !in CleanDropped && !IsAsciiUpper(c) ensures c in r {
      var i :| 0 <= i < |s| && s[i] == c;
      assert lowered[i] == c;
    }
  }

  /** Cleaning works character by character, so the substring tests below see the
      kept characters in their original order... */
  lemma CleanAppend(a: string, b: string)
    ensures Clean(a + b) == Clean(a) + Clean(b)
  {
    LowerAppend(a, b);
    WithoutAppend(Lower(a), Lower(b), CleanDropped);
  }

  /** ...and each character is dropped (《, 》 or a space) or lowered. */
  lemma CleanChar(c: char)
    ensures Clean([c]) == if c in CleanDropped then [] else [LowerChar(c)]
  {
    assert Lower([c]) == [LowerChar(c)];
    WithoutChar(LowerChar(c), CleanDropped);
  }

  /** One entry's fuzzy test: the cleaned query and the cleaned name contain one
      another (either way round), or the lowercased id contains the cleaned query. */
  predicate FuzzyHit(cleanQuery: string, id: string, profile: Attributes) {
    var cleanName := Clean(NameOf(profile));
    Contains(cleanName, cleanQuery) || Contains(cleanQuery, cleanName) || Contains(Lower(id), cleanQuery)
  }

  /** Position of the first entry the fuzzy test accepts; `|entries|` when none does. */
  function FirstHit(entries: OrderedMap.Entries<Attributes>, cleanQuery: string): (i: nat)
    ensures i <= |entries|
    ensures i < |entries| ==> FuzzyHit(cleanQuery, entries[i].0, entries[i].1)
    ensures forall j | 0 <= j < i :: !FuzzyHit(cleanQuery, entries[j].0, entries[j].1)
  {
    if entries == [] then 0
    else if FuzzyHit(cleanQuery, entries[0].0, entries[0].1) then 0
    else
      var rest := entries[1..];
      var i := FirstHit(rest, cleanQuery);
      assert forall j | 0 <= j < i :: rest[j] == entries[j + 1];
      1 + i
  }

  /** `find_media_by_id_or_name`: the exact key first, then the first fuzzy hit. */
  function Find(entries: OrderedMap.Entries<Attributes>, identifier: string): Option<Attributes> {
    if OrderedMap.HasKey(entries, identifier) then OrderedMap.Get(entries, identifier)
    else
      var i := FirstHit(entries, Clean(identifier));
      if i < |entries| then Some(entries[i].1) else None
  }

  /** An exact key always wins; otherwise the result is the profile of the first
      entry the fuzzy test accepts, and nothing exactly when no entry passes it. */
  lemma FindSpec(entries: OrderedMap.Entries<Attributes>, identifier: string)
    ensures OrderedMap.HasKey(entries, identifier) ==>
      Find(entries, identifier) == OrderedMap.Get(entries, identifier) && Find(entries, identifier).Some?
    ensures !OrderedMap.HasKey(entries, identifier) ==>
      (Find(entries, identifier).None? <==>
         forall j | 0 <= j < |entries| :: !FuzzyHit(Clean(identifier), entries[j].0, entries[j].1))
    ensures !OrderedMap.HasKey(entries, identifier) && Find(entries, identifier).Some? ==>
      exists i | 0 <= i < |entries| ::
        && Find(entries, identifier) == Some(entries[i].1)
        && FuzzyHit(Clean(identifier), entries[i].0, entries[i].1)
        && forall j | 0 <= j < i :: !FuzzyHit(Clean(identifier), entries[j].0, entries[j].1)
  {
    var i := FirstHit(entries, Clean(identifier));
    if !OrderedMap.HasKey(entries, identifier) && i < |entries| {
      assert Find(entries, identifier) == Some(entries[i].1);
    }
  }

  /** A profile without a name cleans to "", which every query contains, so the
      fuzzy scan stops at the first nameless entry at the latest. */
  lemma NamelessEntryMatchesAnyQuery(entries: OrderedMap.Entries<Attributes>, identifier: string, k: nat)
    requires k < |entries| && NameOf(entries[k].1) == ""
    ensures Find(entries, identifier).Some?
    ensures !OrderedMap.HasKey(entries, identifier) ==> FirstHit(entries, Clean(identifier)) <= k
  {
    assert Clean("") == [];
    EmptyIsContained(Clean(identifier));
    assert FuzzyHit(Clean(identifier), entries[k].0, entries[k].1);
  }

  /** An empty query that is not a key returns the first profile. */
  lemma EmptyQueryReturnsFirst(entries: OrderedMap.Entries<Attributes>)
    requires entries != [] && !OrderedMap.HasKey(entries, "")
    ensures Find(entries, "") == Some(entries[0].1)
  {
    assert Clean("") == [];
    EmptyIsContained(Clean(NameOf(entries[0].1)));
  }

  // ---------------------------------------------------------------- default line-up

  predicate IsAligned(profile: Attributes) {
    StanceLabelOf(profile) == Some("Aligned")
  }

  /** The ids whose profile is labelled "Aligned", in directory order. */
  function AlignedIds(entries: OrderedMap.Entries<Attributes>): seq<string> {
    if entries == [] then []
    else
      var last := entries[|entries| - 1];
      AlignedIds(entries[..|entries| - 1]) + (if IsAligned(last.1) then [last.0] else [])
  }

  /** The ids of every other profile, in directory order. */
  function OtherIds(entries: OrderedMap.Entries<Attributes>): seq<string> {
    if entries == [] then []
    else
      var last := entries[|entries| - 1];
      OtherIds(entries[..|entries| - 1]) + (if IsAligned(last.1) then [] else [last.0])
  }

  /** Every listed id belongs to an entry of the matching kind. */
  lemma {:induction false} IdsClassified(entries: OrderedMap.Entries<Attributes>)
    ensures forall id | id in AlignedIds(entries) :: exists i | 0 <= i < |entries| :: entries[i].0 == id && IsAligned(entries[i].1)
    ensures forall id | id in OtherIds(entries) :: exists i | 0 <= i < |entries| :: entries[i].0 == id && !IsAligned(entries[i].1)
    ensures |AlignedIds(entries)| + |OtherIds(entries)| == |entries|
  {
    if entries != [] {
      var init := entries[..|entries| - 1];
      IdsClassified(init);
      forall id | id in AlignedIds(entries)
        ensures exists i | 0 <= i < |entries| :: entries[i].0 == id && IsAligned(entries[i].1)
      {
        if id in AlignedIds(init) {
          var i :| 0 <= i < |init| && init[i].0 == id && IsAligned(init[i].1);
          assert entries[i] == init[i];
        } else {
          assert entries[|entries| - 1].0 == id;
        }
      }
      forall id | id in OtherIds(entries)
        ensures exists i | 0 <= i < |entries| :: entries[i].0 == id && !IsAligned(entries[i].1)
      {
        if id in OtherIds(init) {
          var i :| 0 <= i < |init| && init[i].0 == id && !IsAligned(init[i].1);
          assert entries[i] == init[i];
        } else {
          assert entries[|entries| - 1].0 == id;
        }
      }
    }
  }

  /** How many Aligned (resp. other) entries come before position `i`: the place the
      entry at `i` takes in its list. */
  function AlignedRank(entries: OrderedMap.Entries<Attributes>, i: nat): nat
    requires i <= |entries|
  {
    |AlignedIds(entries[..i])|
  }

  function OtherRank(entries: OrderedMap.Entries<Attributes>, i: nat): nat
    requires i <= |entries|
  {
    |OtherIds(entries[..i])|
  }

  /** The positions of the Aligned entries. */
  function AlignedPositions(entries: OrderedMap.Entries<Attributes>): set<nat> {
    set i: nat | i < |entries| && IsAligned(entries[i].1)
  }

  /** The lists of a prefix of the directory are prefixes of the lists of the whole. */
  lemma {:induction false} IdsPrefix(entries: OrderedMap.Entries<Attributes>, m: nat)
    requires m <= |entries|
    ensures |AlignedIds(entries[..m])| <= |AlignedIds(entries)|
    ensures AlignedIds(entries)[..|AlignedIds(entries[..m])|] == AlignedIds(entries[..m])
    ensures |OtherIds(entries[..m])| <= |OtherIds(entries)|
    ensures OtherIds(entries)[..|OtherIds(entries[..m])|] == OtherIds(entries[..m])
    decreases |entries| - m
  {
    if m == |entries| {
      assert entries[..m] == entries;
    } else {
      var n := |entries| - 1;
      assert entries[..n][..m] == entries[..m];
      IdsPrefix(entries[..n], m);
    }
  }

  /** The entry at `i` sits in its list at its rank. */
  lemma IdAtRank(entries: OrderedMap.Entries<Attributes>, i: nat)
    requires i < |entries|
    ensures IsAligned(entries[i].1) ==>
      AlignedRank(entries, i) < |AlignedIds(entries)| && AlignedIds(entries)[AlignedRank(entries, i)] == entries[i].0
    ensures !IsAligned(entries[i].1) ==>
      OtherRank(entries, i) < |OtherIds(entries)| && OtherIds(entries)[OtherRank(entries, i)] == entries[i].0
  {
    IdsPrefix(entries, i + 1);
    assert entries[..i + 1][..i] == entries[..i];
    assert entries[..i + 1][i] == entries[i];
  }

  /** Ranks grow along the directory: an Aligned entry before another comes first in
      the Aligned list, and likewise for the others. */
  lemma RankIncreases(entries: OrderedMap.Entries<Attributes>, i: nat, j: nat)
    requires i < j <= |entries|
    ensures IsAligned(entries[i].1) ==> AlignedRank(entries, i) < AlignedRank(entries, j)
    ensures !IsAligned(entries[i].1) ==> OtherRank(entries, i) < OtherRank(entries, j)
  {
    var prefix := entries[..j];
    IdsPrefix(prefix, i + 1);
    assert prefix[..i + 1] == entries[..i + 1];
    assert entries[..i + 1][..i] == entries[..i];
    assert entries[..i + 1][i] == entries[i];
  }

  /** Place `k` of the Aligned list is held by the Aligned entry at `i`, whose rank is `k`. */
  predicate AlignedAt(entries: OrderedMap.Entries<Attributes>, k: nat, i: nat) {
    && i < |entries| && IsAligned(entries[i].1) && AlignedRank(entries, i) == k
    && k < |AlignedIds(entries)| && AlignedIds(entries)[k] == entries[i].0
  }

  /** Place `k` of the other list is held by the other entry at `i`, whose rank is `k`. */
  predicate OtherAt(entries: OrderedMap.Entries<Attributes>, k: nat, i: nat) {
    && i < |entries| && !IsAligned(entries[i].1) && OtherRank(entries, i) == k
    && k < |OtherIds(entries)| && OtherIds(entries)[k] == entries[i].0
  }

  /** Every place in the Aligned list is held by the Aligned entry of that rank. */
  lemma {:induction false} AlignedSource(entries: OrderedMap.Entries<Attributes>, k: nat)
    requires k < |AlignedIds(entries)|
    ensures exists i: nat :: AlignedAt(entries, k, i)
  {
    var n := |entries| - 1;
    var init := entries[..n];
    assert AlignedIds(entries) == AlignedIds(init) + (if IsAligned(entries[n].1) then [entries[n].0] else []);
    if k < |AlignedIds(init)| {
      AlignedSource(init, k);
      var i: nat :| AlignedAt(init, k, i);
      assert init[..i] == entries[..i];
      assert AlignedAt(entries, k, i);
    } else {
      assert AlignedAt(entries, k, n);
    }
  }

  /** Every place in the other list is held by the other entry of that rank. */
  lemma {:induction false} OtherSource(entries: OrderedMap.Entries<Attributes>, k: nat)
    requires k < |OtherIds(entries)|
    ensures exists i: nat :: OtherAt(entries, k, i)
  {
    var n := |entries| - 1;
    var init := entries[..n];
    assert OtherIds(entries) == OtherIds(init) + (if IsAligned(entries[n].1) then [] else [entries[n].0]);
    if k < |OtherIds(init)| {
      OtherSource(init, k);
      var i: nat :| OtherAt(init, k, i);
      assert init[..i] == entries[..i];
      assert OtherAt(entries, k, i);
    } else {
      assert OtherAt(entries, k, n);
    }
  }

  /** The Aligned list holds one id per Aligned entry. */
  lemma {:induction false} AlignedCount(entries: OrderedMap.Entries<Attributes>)
    ensures |AlignedIds(entries)| == |AlignedPositions(entries)|
    ensures |OtherIds(entries)| == |entries| - |AlignedPositions(entries)|
  {
    if entries != [] {
      var n := |entries| - 1;
      var init := entries[..n];
      AlignedCount(init);
      if IsAligned(entries[n].1) {
        assert AlignedPositions(entries) == AlignedPositions(init) + {n};
      } else {
        assert AlignedPositions(entries) == AlignedPositions(init);
      }
    }
  }

  /** The line-up used when a press conference names no media. */
  function DefaultLineUp(entries: OrderedMap.Entries<Attributes>): seq<string> {
    Take(AlignedIds(entries), 5) + Take(OtherIds(entries), 2)
  }

  /** At most seven ids, all of them directory keys: up to five Aligned ones first,
      then up to two others; fewer only when the directory has fewer of either kind. */
  lemma DefaultLineUpSpec(entries: OrderedMap.Entries<Attributes>)
    ensures |DefaultLineUp(entries)| <= 7
    ensures forall k | 0 <= k < |DefaultLineUp(entries)| :: OrderedMap.HasKey(entries, DefaultLineUp(entries)[k])
    ensures var a := |Take(AlignedIds(entries), 5)|;
      && (forall k | 0 <= k < a :: DefaultLineUp(entries)[k] in AlignedIds(entries))
      && (forall k | a <= k < |DefaultLineUp(entries)| :: DefaultLineUp(entries)[k] in OtherIds(entries))
  {
    var aligned := Take(AlignedIds(entries), 5);
    var lineUp := DefaultLineUp(entries);
    forall k | 0 <= k < |lineUp| ensures OrderedMap.HasKey(entries, lineUp[k]) {
      if k < |aligned| {
        AlignedSource(entries, k);
        var i: nat :| AlignedAt(entries, k, i);
        assert lineUp[k] == entries[i].0;
      } else {
        OtherSource(entries, k - |aligned|);
        var i: nat :| OtherAt(entries, k - |aligned|, i);
        assert lineUp[k] == entries[i].0;
      }
    }
    forall k | 0 <= k < |aligned| ensures lineUp[k] in AlignedIds(entries) {
      assert lineUp[k] == AlignedIds(entries)[k];
    }
    forall k | |aligned| <= k < |lineUp| ensures lineUp[k] in OtherIds(entries) {
      assert lineUp[k] == OtherIds(entries)[k - |aligned|];
    }
  }

  /** The line-up takes five Aligned media when the directory has five, else all of
      them, and likewise two others. */
  lemma LineUpSize(entries: OrderedMap.Entries<Attributes>)
    ensures var aligned := |AlignedPositions(entries)|;
      var others := |entries| - aligned;
      && |Take(AlignedIds(entries), 5)| == (if aligned < 5 then aligned else 5)
      && |DefaultLineUp(entries)| == (if aligned < 5 then aligned else 5) + (if others < 2 then others else 2)
  {
    AlignedCount(entries);
  }

  /** Directory order decides who is invited: an Aligned entry with fewer than five
      Aligned entries before it is invited at its rank, and an other entry with fewer
      than two others before it right after the Aligned ones, at its rank. */
  lemma LineUpOrder(entries: OrderedMap.Entries<Attributes>)
    ensures forall i | 0 <= i < |entries| && IsAligned(entries[i].1) && AlignedRank(entries, i) < 5 ::
      AlignedRank(entries, i) < |DefaultLineUp(entries)|
      && DefaultLineUp(entries)[AlignedRank(entries, i)] == entries[i].0
    ensures var a := |Take(AlignedIds(entries), 5)|;
      forall i | 0 <= i < |entries| && !IsAligned(entries[i].1) && OtherRank(entries, i) < 2 ::
        a + OtherRank(entries, i) < |DefaultLineUp(entries)|
        && DefaultLineUp(entries)[a + OtherRank(entries, i)] == entries[i].0
  {
    var a := |Take(AlignedIds(entries), 5)|;
    forall i | 0 <= i < |entries| && IsAligned(entries[i].1) && AlignedRank(entries, i) < 5
      ensures AlignedRank(entries, i) < |DefaultLineUp(entries)|
      ensures DefaultLineUp(entries)[AlignedRank(entries, i)] == entries[i].0
    {
      IdAtRank(entries, i);
    }
    forall i | 0 <= i < |entries| && !IsAligned(entries[i].1) && OtherRank(entries, i) < 2
      ensures a + OtherRank(entries, i) < |DefaultLineUp(entries)|
      ensures DefaultLineUp(entries)[a + OtherRank(entries, i)] == entries[i].0
    {
      IdAtRank(entries, i);
    }
  }

  /** Eight Aligned media and three others give a full line-up of seven: the first five
      Aligned ones and the first two others. */
  lemma FullLineUp(entries: OrderedMap.Entries<Attributes>)
    requires |entries| == 11
    requires forall i | 0 <= i < 11 :: IsAligned(entries[i].1) <==> i < 8
    ensures DefaultLineUp(entries)
         == [entries[0].0, entries[1].0, entries[2].0, entries[3].0, entries[4].0, entries[8].0, entries[9].0]
  {
    LeadingRanks(entries, 8, 11);
    assert entries[..11] == entries;
    var aligned := AlignedIds(entries);
    var others := OtherIds(entries);
    assert |aligned| == 8 && |others| == 3;
    LeadingRanks(entries, 8, 0);
    LeadingRanks(entries, 8, 1);
    LeadingRanks(entries, 8, 2);
    LeadingRanks(entries, 8, 3);
    LeadingRanks(entries, 8, 4);
    LeadingRanks(entries, 8, 8);
    LeadingRanks(entries, 8, 9);
    IdAtRank(entries, 0);
    IdAtRank(entries, 1);
    IdAtRank(entries, 2);
    IdAtRank(entries, 3);
    IdAtRank(entries, 4);
    IdAtRank(entries, 8);
    IdAtRank(entries, 9);
    assert Take(aligned, 5) == aligned[..5];
    assert Take(others, 2) == others[..2];
  }

  /** When the Aligned entries are exactly the first `p`, ranks count positions. */
  lemma {:induction false} LeadingRanks(entries: OrderedMap.Entries<Attributes>, p: nat, i: nat)
    requires i <= |entries|
    requires forall j | 0 <= j < |entries| :: IsAligned(entries[j].1) <==> j < p
    ensures AlignedRank(entries, i) == (if i < p then i else p)
    ensures OtherRank(entries, i) == (if i < p then 0 else i - p)
  {
    if i > 0 {
      LeadingRanks(entries, p, i - 1);
      assert entries[..i][..i - 1] == entries[..i - 1];
      assert entries[..i][i - 1] == entries[i - 1];
    }
  }

  // ---------------------------------------------------------------- the directory

  /** The two dictionaries loaded at start-up; the server never changes them. */
  class AgentDirectory {
    const media: OrderedMap.Entries<Attributes>
    const users: OrderedMap.Entries<Attributes>

    predicate Valid() {
      OrderedMap.UniqueKeys(media) && OrderedMap.UniqueKeys(users)
    }

    constructor (media: OrderedMap.Entries<Attributes>, users: OrderedMap.Entries<Attributes>)
      requires OrderedMap.UniqueKeys(media) && OrderedMap.UniqueKeys(users)
      ensures this.media == media && this.users == users
      ensures Valid()
    {
      this.media := media;
      this.users := users;
    }

    /** `find_media_by_id_or_name`: exact key, else one scan in directory order that
        returns at the first entry passing the name test or the id test. */
    method FindMedia(identifier: string) returns (r: Option<Attributes>)
      ensures r == Find(media, identifier)
      ensures Valid() ==> forall j | 0 <= j < |media| && media[j].0 == identifier :: r == Some(media[j].1)
    {
      if OrderedMap.HasKey(media, identifier) {
        if Valid() {
          forall j | 0 <= j < |media| && media[j].0 == identifier
            ensures OrderedMap.Get(media, identifier) == Some(media[j].1)
          {
            OrderedMap.GetUnique(media, j);
          }
        }
        return OrderedMap.Get(media, identifier);
      }
      var cleanIdentifier := Clean(identifier);
      for i := 0 to |media|
        invariant forall j | 0 <= j < i :: !FuzzyHit(cleanIdentifier, media[j].0, media[j].1)
      {
        var (mediaId, profile) := media[i];
        var cleanName := Clean(NameOf(profile));
        if Contains(cleanIdentifier, cleanName) || Contains(cleanName, cleanIdentifier) {
          FirstHitIs(media, cleanIdentifier, i);
          return Some(profile);
        }
        if Contains(Lower(mediaId), cleanIdentifier) {
          FirstHitIs(media, cleanIdentifier, i);
          return Some(profile);
        }
      }
      FirstHitIs(media, cleanIdentifier, |media|);
      return None;
    }

    /** `user_profiles[user_id]`: users are looked up by exact key only. */
    method FindUser(userId: string) returns (r: Option<Attributes>)
      ensures r == OrderedMap.Get(users, userId)
      ensures r.Some? <==> OrderedMap.HasKey(users, userId)
      ensures Valid() ==> forall j | 0 <= j < |users| && users[j].0 == userId :: r == Some(users[j].1)
    {
      if Valid() {
        forall j | 0 <= j < |users| && users[j].0 == userId
          ensures OrderedMap.Get(users, userId) == Some(users[j].1)
        {
          OrderedMap.GetUnique(users, j);
        }
      }
      var i := 0;
      while i < |users|
        invariant 0 <= i <= |users|
        invariant forall j | 0 <= j < i :: users[j].0 != userId
      {
        if users[i].0 == userId {
          IndexOfIs(users, userId, i);
          return Some(users[i].1);
        }
        i := i + 1;
      }
      IndexOfIs(users, userId, |users|);
      return None;
    }

    /** The default line-up of `simulate_press_conference`: one pass sorting ids into
        Aligned and other, then the first five and the first two. */
    method DefaultSelection() returns (ids: seq<string>)
      ensures ids == DefaultLineUp(media)
    {
      var alignedMedias: seq<string> := [];
      var otherMedias: seq<string> := [];
      for i := 0 to |media|
        invariant alignedMedias == AlignedIds(media[..i])
        invariant otherMedias == OtherIds(media[..i])
      {
        assert media[..i + 1][..i] == media[..i];
        var (mediaId, profile) := media[i];
        if StanceLabelOf(profile) == Some("Aligned") {
          alignedMedias := alignedMedias + [mediaId];
        } else {
          otherMedias := otherMedias + [mediaId];
        }
      }
      assert media[..|media|] == media;
      ids := Take(alignedMedias, 5) + Take(otherMedias, 2);
    }
  }

  /** The scan position pins down the first fuzzy hit. */
  lemma FirstHitIs(entries: OrderedMap.Entries<Attributes>, cleanQuery: string, i: nat)
    requires i <= |entries|
    requires i < |entries| ==> FuzzyHit(cleanQuery, entries[i].0, entries[i].1)
    requires forall j | 0 <= j < i :: !FuzzyHit(cleanQuery, entries[j].0, entries[j].1)
    ensures FirstHit(entries, cleanQuery) == i
  {
  }

  /** The scan position pins down the first index of a key. */
  lemma IndexOfIs(entries: OrderedMap.Entries<Attributes>, k: string, i: nat)
    requires i <= |entries|
    requires i < |entries| ==> entries[i].0 == k
    requires forall j | 0 <= j < i :: entries[j].0 != k
    ensures OrderedMap.IndexOf(entries, k) == i
  {
  }
}
