/** The read path: every document fetched from the campaign collection is
    stripped of the identifier the store added and rebuilt into a campaign;
    a document that does not rebuild is reported and skipped. */
module Database {
  import opened Wrappers
  import opened Document
  import CampaignSchema
  import Seqs

  /** The key under which the store keeps a document's identifier. */
  const IdKey: string := "_id"

  /** `if '_id' in item: del item['_id']`. */
  function WithoutId(item: map<string, Value>): (r: map<string, Value>)
    ensures IdKey !in r
    ensures forall k :: k in item && k != IdKey ==> k in r && r[k] == item[k]
    ensures r.Keys <= item.Keys
  {
    item - {IdKey}
  }

  /** One turn of the loop body: the stripped document through
      `CampaignData.from_dict`. Removing the identifier changes nothing the
      decoder reads: a document rebuilds exactly as it would with its
      identifier still in place. */
  function Rebuild(item: map<string, Value>): (r: Result<CampaignSchema.Campaign, DecodeError>)
    ensures r == CampaignSchema.FromDict(Dict(item))
  {
    var stripped := WithoutId(item);
    IdNotInSchema();
    assert Restrict(stripped, CampaignSchema.Keys) == Restrict(item, CampaignSchema.Keys);
    CampaignSchema.OnlySchemaKeysMatter(Dict(stripped), Dict(item));
    CampaignSchema.FromDict(Dict(stripped))
  }

  /** `get_data` once the documents are fetched: the campaigns rebuilt from
      the documents that decode, in the order fetched, and the error of each
      one that does not. */
  method GetData(items: seq<map<string, Value>>) returns (campaigns: seq<CampaignSchema.Campaign>, errors: seq<DecodeError>)
    ensures campaigns == Seqs.Successes(items, Rebuild)
    ensures errors == Seqs.Failures(items, Rebuild)
    ensures |campaigns| + |errors| == |items|
  {
    campaigns, errors := [], [];
    var i := 0;
    while i < |items|
      invariant 0 <= i <= |items|
      invariant campaigns == Seqs.Successes(items[..i], Rebuild)
      invariant errors == Seqs.Failures(items[..i], Rebuild)
    {
      var item := items[i];
      if IdKey in item {
        item := item - {IdKey};
      }
      assert item == WithoutId(items[i]);
      var r := CampaignSchema.FromDict(Dict(item));
      Seqs.SuccessesStep(items, i, Rebuild);
      if r.Ok? {
        campaigns := campaigns + [r.value];
      } else {
        errors := errors + [r.error];
      }
      i := i + 1;
    }
    assert items[..i] == items;
    Seqs.OutcomeCount(items, Rebuild);
  }

  /** The identifier is not a schema key. */
  lemma IdNotInSchema()
    ensures IdKey !in CampaignSchema.Keys
  {
  }

  /** A stored campaign, whatever identifier the store gave it, comes back
      as the same campaign. */
  lemma StoredComesBack(c: CampaignSchema.Campaign, id: Value)
    ensures Rebuild(CampaignSchema.ToDict(c).entries[IdKey := id]) == Ok(c)
  {
    IdNotInSchema();
    IdRemoved(CampaignSchema.ToDict(c).entries, id);
    CampaignSchema.RoundTrip(c);
  }

  /** Stripping the identifier undoes adding it to a document that had none. */
  lemma IdRemoved(m: map<string, Value>, id: Value)
    requires IdKey !in m
    ensures WithoutId(m[IdKey := id]) == m
  {
    assert WithoutId(m[IdKey := id]).Keys == m.Keys;
  }

  /** Reading back a collection that holds exactly the uploaded batch, each
      document with its identifier, gives back every uploaded campaign in the
      order read and reports no error. */
  lemma {:induction false} UploadedBatchComesBack(cs: seq<CampaignSchema.Campaign>, ids: seq<Value>)
    requires |ids| == |cs|
    ensures var items := seq(|cs|, i requires 0 <= i < |cs| => CampaignSchema.ToDict(cs[i]).entries[IdKey := ids[i]]);
      Seqs.Successes(items, Rebuild) == cs && Seqs.Failures(items, Rebuild) == []
  {
    var items := seq(|cs|, i requires 0 <= i < |cs| => CampaignSchema.ToDict(cs[i]).entries[IdKey := ids[i]]);
    forall i | 0 <= i < |items|
      ensures Rebuild(items[i]) == Ok(cs[i])
    {
      StoredComesBack(cs[i], ids[i]);
    }
    Seqs.AllSucceed(items, Rebuild);
  }
}
