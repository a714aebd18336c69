/**
 The guide catalog: a constant table from guide id to title, href and group, kept
 in insertion order (a Python `dict` iterates in that order), with a lookup by id,
 a filter by group and a list of every guide with its id attached.
 */
module Catalog {
  import opened Common
  import opened Text
  import opened Json
  import opened Validation

  datatype Guide = Guide(title: string, href: string, group: string)

  /** One `GUIDES_CATALOG` item: its key and its value. */
  datatype Entry = Entry(id: string, guide: Guide)

  /** `{"id": gid, **guide}`: a catalog value with its key attached. */
  datatype Record = Record(id: string, title: string, href: string, group: string)

  function RecordOf(e: Entry): Record {
    Record(e.id, e.guide.title, e.guide.href, e.guide.group)
  }

  const BeginnerBasics: string := "Beginner Basics"
  const ChoosingAnAccount: string := "Choosing an Account"

  /** The catalog's entries, one constant per guide. */
  const PropFirm: Entry :=
    Entry("what-is-a-prop-firm",
          Guide("What is a Prop Firm?", "/guides/what-is-a-prop-firm", BeginnerBasics))
  const FuturesTrading: Entry :=
    Entry("what-is-futures-trading",
          Guide("What is Futures Trading?", "/guides/what-is-futures-trading", BeginnerBasics))
  const SimAccount: Entry :=
    Entry("what-is-a-sim-account",
          Guide("What is a Sim Account?", "/guides/what-is-a-sim-account", BeginnerBasics))
  const Evaluation: Entry :=
    Entry("what-is-an-evaluation",
          Guide("What is a Prop Firm Evaluation?", "/guides/what-is-an-evaluation", BeginnerBasics))
  const WayToStartFutures: Entry :=
    Entry("best-way-to-start-trading-futures",
          Guide("Best Way to Start Trading Futures", "/guides/best-way-to-start-trading-futures",
                ChoosingAnAccount))
  const PropFirmToStart: Entry :=
    Entry("best-prop-firm-to-start",
          Guide("Best Prop Firm to Start With", "/guides/best-prop-firm-to-start", ChoosingAnAccount))
  const AccountSizeToStart: Entry :=
    Entry("best-account-size-to-start",
          Guide("What Account Size Should I Start With?", "/guides/best-account-size-to-start",
                ChoosingAnAccount))
  const SkipEvaluation: Entry :=
    Entry("should-i-skip-evaluation",
          Guide("Should I Skip the Evaluation?", "/guides/should-i-skip-evaluation", ChoosingAnAccount))
  const StraightToSimFunded: Entry :=
    Entry("what-is-straight-to-sim-funded",
          Guide("What is a Straight-to-Sim-Funded Account?", "/guides/what-is-straight-to-sim-funded",
                ChoosingAnAccount))
  const PersonalVsProp: Entry :=
    Entry("personal-vs-prop-account",
          Guide("Personal Account vs Prop Account", "/guides/personal-vs-prop-account", ChoosingAnAccount))
  const FuturesProducts: Entry :=
    Entry("futures-trading-products",
          Guide("Futures Trading Products", "/guides/futures-trading-products", BeginnerBasics))

  /** `GUIDES_CATALOG`, in insertion order. */
  const Entries: seq<Entry> :=
    [PropFirm, FuturesTrading, SimAccount, Evaluation,
     WayToStartFutures, PropFirmToStart, AccountSizeToStart, SkipEvaluation,
     StraightToSimFunded, PersonalVsProp, FuturesProducts]

  /** No two entries share a key, as in any `dict`. */
  predicate KeysDistinct(entries: seq<Entry>) {
    forall i, j :: 0 <= i < j < |entries| ==> entries[i].id != entries[j].id
  }

  function Ids(entries: seq<Entry>): set<string> {
    set i | 0 <= i < |entries| :: entries[i].id
  }

  /** `dict.get` on a table given as its items in order. */
  function Lookup(entries: seq<Entry>, id: string): (r: Option<Guide>)
    ensures r.None? <==> id !in Ids(entries)
    ensures r.Some? ==> exists i :: 0 <= i < |entries| && entries[i] == Entry(id, r.value)
    ensures KeysDistinct(entries) ==>
              forall i :: 0 <= i < |entries| && entries[i].id == id ==> r == Some(entries[i].guide)
  {
    if |entries| == 0 then None
    else if entries[0].id == id then Some(entries[0].guide)
    else
      var r := Lookup(entries[1..], id);
      assert Ids(entries) == {entries[0].id} + Ids(entries[1..]) by {
        forall x ensures x in Ids(entries) <==> x in {entries[0].id} + Ids(entries[1..]) {
          if x in Ids(entries) && x != entries[0].id {
            var i :| 0 <= i < |entries| && entries[i].id == x;
            assert entries[1..][i - 1].id == x;
          }
        }
      }
      assert r.Some? ==> exists i :: 0 <= i < |entries| && entries[i] == Entry(id, r.value) by {
        if r.Some? {
          var i :| 0 <= i < |entries[1..]| && entries[1..][i] == Entry(id, r.value);
          assert entries[i + 1] == Entry(id, r.value);
        }
      }
      r
  }

  lemma CatalogKeysDistinct()
    ensures KeysDistinct(Entries)
  {
  }

  /** `get_guide_by_id(guide_id)`: the stored value for a catalog key, `None` for
      any other string. */
  function GetGuideById(id: string): (r: Option<Guide>)
    ensures r.None? <==> id !in Ids(Entries)
    ensures forall i :: 0 <= i < |Entries| && Entries[i].id == id ==> r == Some(Entries[i].guide)
  {
    CatalogKeysDistinct();
    Lookup(Entries, id)
  }

  /** The records of the entries whose group is `group`, in table order. */
  function ByGroup(entries: seq<Entry>, group: string): (r: seq<Record>)
    ensures |r| <= |entries|
    ensures forall k :: 0 <= k < |r| ==> r[k].group == group
  {
    if |entries| == 0 then []
    else (if entries[0].guide.group == group then [RecordOf(entries[0])] else []) + ByGroup(entries[1..], group)
  }

  /** A record is in the filtered list exactly when some entry of that group
      produces it. */
  lemma {:induction false} ByGroupMembers(entries: seq<Entry>, group: string, x: Record)
    ensures x in ByGroup(entries, group) <==>
            exists i :: 0 <= i < |entries| && entries[i].guide.group == group && RecordOf(entries[i]) == x
  {
    if |entries| > 0 {
      var rest := entries[1..];
      ByGroupMembers(rest, group, x);
      if x in ByGroup(rest, group) {
        var i :| 0 <= i < |rest| && rest[i].guide.group == group && RecordOf(rest[i]) == x;
        assert entries[i + 1] == rest[i];
      }
      if exists i :: 1 <= i < |entries| && entries[i].guide.group == group && RecordOf(entries[i]) == x {
        var i :| 1 <= i < |entries| && entries[i].guide.group == group && RecordOf(entries[i]) == x;
        assert rest[i - 1] == entries[i];
      }
    }
  }

  /** Filtering a concatenation filters each part in place: the filter keeps the
      table's order. */
  lemma {:induction false} ByGroupAppend(a: seq<Entry>, b: seq<Entry>, group: string)
    ensures ByGroup(a + b, group) == ByGroup(a, group) + ByGroup(b, group)
  {
    if |a| == 0 {
      assert a + b == b;
    } else {
      assert (a + b)[0] == a[0];
      assert (a + b)[1..] == a[1..] + b;
      ByGroupAppend(a[1..], b, group);
    }
  }

  /** `get_guides_by_group(group)`: the catalog records of that group, tagged
      with their ids. */
  function GetGuidesByGroup(group: string): (r: seq<Record>)
    ensures forall k :: 0 <= k < |r| ==> r[k].group == group
    ensures forall x :: x in r <==>
              exists i :: 0 <= i < |Entries| && Entries[i].guide.group == group && RecordOf(Entries[i]) == x
  {
    assert forall x :: x in ByGroup(Entries, group) <==>
             exists i :: 0 <= i < |Entries| && Entries[i].guide.group == group && RecordOf(Entries[i]) == x by {
      forall x {
        ByGroupMembers(Entries, group, x);
      }
    }
    ByGroup(Entries, group)
  }

  /** The records of all entries, in table order. */
  function Records(entries: seq<Entry>): (r: seq<Record>)
    ensures |r| == |entries|
    ensures forall i :: 0 <= i < |r| ==> r[i] == RecordOf(entries[i])
  {
    if |entries| == 0 then [] else [RecordOf(entries[0])] + Records(entries[1..])
  }

  /** `get_all_guides()`: one record per catalog entry, in table order, each
      carrying what `get_guide_by_id` returns for its id. */
  function GetAllGuides(): (r: seq<Record>)
    ensures |r| == |Entries| == 11
    ensures forall i :: 0 <= i < |r| ==> r[i].id == Entries[i].id && r[i].group == Entries[i].guide.group
    ensures forall i :: 0 <= i < |r| ==> GetGuideById(r[i].id) == Some(Guide(r[i].title, r[i].href, r[i].group))
  {
    Records(Entries)
  }

  /** A group no entry carries yields an empty list. */
  lemma UnknownGroupEmpty(group: string)
    requires group != BeginnerBasics && group != ChoosingAnAccount
    ensures GetGuidesByGroup(group) == []
  {
    ByGroupAbsent(Entries, group);
  }

  lemma ByGroupAbsent(entries: seq<Entry>, group: string)
    requires forall i :: 0 <= i < |entries| ==> entries[i].guide.group != group
    ensures ByGroup(entries, group) == []
  {
    var r := ByGroup(entries, group);
    if |r| > 0 {
      ByGroupMembers(entries, group, r[0]);
      assert false;
    }
  }

  /** When every entry is in group `a` or group `b`, the two filters split the
      whole list: together they hold each record exactly as often as the list. */
  lemma {:induction false} TwoGroupsPartition(entries: seq<Entry>, a: string, b: string)
    requires a != b
    requires forall i :: 0 <= i < |entries| ==> entries[i].guide.group == a || entries[i].guide.group == b
    ensures multiset(ByGroup(entries, a)) + multiset(ByGroup(entries, b)) == multiset(Records(entries))
  {
    if |entries| > 0 {
      var e := entries[0];
      var rest := entries[1..];
      TwoGroupsPartition(rest, a, b);
      assert Records(entries) == [RecordOf(e)] + Records(rest);
      if e.guide.group == a {
        assert ByGroup(entries, a) == [RecordOf(e)] + ByGroup(rest, a);
        assert ByGroup(entries, b) == ByGroup(rest, b);
      } else {
        assert ByGroup(entries, a) == ByGroup(rest, a);
        assert ByGroup(entries, b) == [RecordOf(e)] + ByGroup(rest, b);
      }
    }
  }

  /** The "Beginner Basics" and "Choosing an Account" lists partition the whole
      catalog. */
  lemma GroupsPartitionCatalog()
    ensures multiset(GetGuidesByGroup(BeginnerBasics)) + multiset(GetGuidesByGroup(ChoosingAnAccount)) ==
            multiset(GetAllGuides())
  {
    TwoGroupsPartition(Entries, BeginnerBasics, ChoosingAnAccount);
  }

  /** A slug of at most 100 characters is its own normalised form, so a payload
      carrying it as `guide_id` (and nothing else) is accepted with that id. */
  lemma SlugIdAccepted(id: string)
    requires IsSlug(id) && |id| <= MaxGuideIdLength
    ensures ValidateGuideData(Object(map["guide_id" := Str(id)])) == Accepted(id)
  {
    var data := Object(map["guide_id" := Str(id)]);
    assert data.fields.Keys == {"guide_id"};
    assert FieldOr(data.fields, "guide_id") == Found(id);
    StripKeepsUnpadded(id);
    forall i | 0 <= i < |id| ensures LowerFixed(id[i]) {
      assert IsSlugChar(id[i]);
    }
    LowerOfFixed(id);
    assert NormalisedFields(data.fields) == Some(Fields(id, "", ""));
    AcceptedIff(data);
  }

  /** The shipped form of an entry: its href is `/guides/` followed by its id, and
      its id is a slug short enough to pass ingestion validation. */
  predicate Consistent(e: Entry) {
    e.guide.href == "/guides/" + e.id && IsSlug(e.id) && |e.id| <= MaxGuideIdLength
  }

  lemma ShippedIdsAreSlugs1()
    ensures IsSlug("what-is-a-prop-firm")
         && IsSlug("what-is-futures-trading")
         && IsSlug("what-is-a-sim-account")
         && IsSlug("what-is-an-evaluation")
  {
  }

  lemma ShippedIdsAreSlugs2()
    ensures IsSlug("best-way-to-start-trading-futures")
         && IsSlug("best-prop-firm-to-start")
         && IsSlug("best-account-size-to-start")
  {
  }

  lemma ShippedIdsAreSlugs3()
    ensures IsSlug("should-i-skip-evaluation")
         && IsSlug("what-is-straight-to-sim-funded")
         && IsSlug("personal-vs-prop-account")
         && IsSlug("futures-trading-products")
  {
  }

  lemma PropFirmHref()
    ensures "/guides/what-is-a-prop-firm" == "/guides/" + "what-is-a-prop-firm"
  {
  }

  lemma FuturesTradingHref()
    ensures "/guides/what-is-futures-trading" == "/guides/" + "what-is-futures-trading"
  {
  }

  lemma SimAccountHref()
    ensures "/guides/what-is-a-sim-account" == "/guides/" + "what-is-a-sim-account"
  {
  }

  lemma EvaluationHref()
    ensures "/guides/what-is-an-evaluation" == "/guides/" + "what-is-an-evaluation"
  {
  }

  lemma WayToStartFuturesHref()
    ensures "/guides/best-way-to-start-trading-futures" == "/guides/" + "best-way-to-start-trading-futures"
  {
  }

  lemma PropFirmToStartHref()
    ensures "/guides/best-prop-firm-to-start" == "/guides/" + "best-prop-firm-to-start"
  {
  }

  lemma AccountSizeToStartHref()
    ensures "/guides/best-account-size-to-start" == "/guides/" + "best-account-size-to-start"
  {
  }

  lemma SkipEvaluationHref()
    ensures "/guides/should-i-skip-evaluation" == "/guides/" + "should-i-skip-evaluation"
  {
  }

  lemma StraightToSimFundedHref()
    ensures "/guides/what-is-straight-to-sim-funded" == "/guides/" + "what-is-straight-to-sim-funded"
  {
  }

  lemma PersonalVsPropHref()
    ensures "/guides/personal-vs-prop-account" == "/guides/" + "personal-vs-prop-account"
  {
  }

  lemma FuturesProductsHref()
    ensures "/guides/futures-trading-products" == "/guides/" + "futures-trading-products"
  {
  }

  /** Every shipped entry has that form. */
  lemma ShippedCatalogConsistent()
    ensures forall i :: 0 <= i < |Entries| ==> Consistent(Entries[i])
  {
    ShippedIdsAreSlugs1();
    ShippedIdsAreSlugs2();
    ShippedIdsAreSlugs3();
    PropFirmHref();
    FuturesTradingHref();
    SimAccountHref();
    EvaluationHref();
    WayToStartFuturesHref();
    PropFirmToStartHref();
    AccountSizeToStartHref();
    SkipEvaluationHref();
    StraightToSimFundedHref();
    PersonalVsPropHref();
    FuturesProductsHref();
  }

  /** Every catalog id, sent alone as `guide_id`, passes ingestion validation
      unchanged. */
  lemma CatalogIdsAccepted(i: nat)
    requires i < |Entries|
    ensures ValidateGuideData(Object(map["guide_id" := Str(Entries[i].id)])) == Accepted(Entries[i].id)
  {
    ShippedCatalogConsistent();
    assert Consistent(Entries[i]);
    SlugIdAccepted(Entries[i].id);
  }
}
