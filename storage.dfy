/** The BrandView key-value store: every key is namespaced under `bv_`, reads fall
    back when a key is absent or holds an empty string, and the three stored shapes
    are snapshot lists, contact lists and campaign lists. */
module Storage {
  import opened Seqs
  import opened Strings

  datatype Snapshot = Snapshot(
    ts: int, platform: string, followers: int, posts: int,
    avgLikes: int, avgComments: int, avgShares: int, engagement: int)

  datatype Contact = Contact(id: string, email: string, name: Option<string>)

  datatype Metrics = Metrics(opens: int, clicks: int, replies: int)

  datatype Campaign = Campaign(
    id: string, createdAt: int, subject: string, body: string,
    contactIds: seq<string>, metrics: Metrics)

  /** A stored JSON value, one alternative per shape the application writes. */
  datatype Value =
    | SnapshotList(snapshots: seq<Snapshot>)
    | ContactList(contacts: seq<Contact>)
    | CampaignList(campaigns: seq<Campaign>)

  /** What `getItem` finds under a key that exists: the empty string, or a value. */
  datatype Slot = Blank | Stored(value: Value)

  const Prefix: string := "bv_"

  /** `ns` */
  function Ns(key: string): (r: string)
    ensures StartsWith(r, Prefix) && r[|Prefix|..] == key
  {
    Prefix + key
  }

  lemma NsInjective(a: string, b: string)
    requires Ns(a) == Ns(b)
    ensures a == b
  {
    assert a == Ns(a)[3..] && b == Ns(b)[3..];
  }

  /** `read` over a given store: `None` is the fallback case. */
  function ReadFrom(data: map<string, Slot>, key: string): (r: Option<Value>)
    ensures r == None <==> Ns(key) !in data || data[Ns(key)] == Blank
    ensures r.Some? ==> data[Ns(key)] == Stored(r.value)
  {
    if Ns(key) in data && data[Ns(key)].Stored? then Some(data[Ns(key)].value) else None
  }

  /** A write is seen by the next read of the same key and by no other key. */
  lemma ReadAfterWrite(data: map<string, Slot>, k: string, v: Value, k2: string)
    ensures ReadFrom(data[Ns(k) := Stored(v)], k) == Some(v)
    ensures k2 != k ==> ReadFrom(data[Ns(k) := Stored(v)], k2) == ReadFrom(data, k2)
  {
    if k2 != k && Ns(k2) == Ns(k) {
      NsInjective(k2, k);
    }
  }

  /** The key of one creator's snapshot history on one platform. */
  function SnapshotKey(creatorId: string, platform: string): string {
    "snapshots_" + creatorId + "_" + platform
  }

  /** Neither fixed key is ever a snapshot key, so the three shapes never share a key. */
  lemma FixedKeysDistinct(creatorId: string, platform: string)
    ensures SnapshotKey(creatorId, platform) != "contacts"
    ensures SnapshotKey(creatorId, platform) != "campaigns"
    ensures "contacts" != "campaigns"
  {
    assert SnapshotKey(creatorId, platform)[0] == 's';
    assert "contacts"[1] != "campaigns"[1];
  }

  /** The key format separates its parts with `_` without escaping, so a creator id
      holding `_` can share a history with another creator. */
  lemma SnapshotKeyCollision()
    ensures SnapshotKey("a_b", "c") == SnapshotKey("a", "b_c")
  {
  }

  const ContactsKey: string := "contacts"
  const CampaignsKey: string := "campaigns"

  /** The browser's storage as seen through this module. */
  class Store {
    var data: map<string, Slot>

    constructor (initial: map<string, Slot>)
      ensures data == initial
    {
      data := initial;
    }

    function Read(key: string): Option<Value>
      reads this
    {
      ReadFrom(data, key)
    }

    /** `write`: only the namespaced key changes. */
    method Write(key: string, v: Value)
      modifies this`data
      ensures data == old(data)[Ns(key) := Stored(v)]
      ensures Read(key) == Some(v)
      ensures forall k :: k != key ==> Read(k) == old(Read(k))
    {
      data := data[Ns(key) := Stored(v)];
      forall k | k != key ensures Read(k) == old(Read(k)) {
        ReadAfterWrite(old(data), key, v, k);
      }
    }

    /** `getSnapshots` */
    function GetSnapshots(creatorId: string, platform: string): seq<Snapshot>
      reads this
    {
      match Read(SnapshotKey(creatorId, platform))
      case Some(SnapshotList(s)) => s
      case _ => []
    }

    /** `addSnapshot`: the history gains exactly `snap` at its end. */
    method AddSnapshot(creatorId: string, platform: string, snap: Snapshot)
      modifies this`data
      ensures GetSnapshots(creatorId, platform) == old(GetSnapshots(creatorId, platform)) + [snap]
      ensures data == old(data)[Ns(SnapshotKey(creatorId, platform)) :=
        Stored(SnapshotList(old(GetSnapshots(creatorId, platform)) + [snap]))]
    {
      var arr := GetSnapshots(creatorId, platform);
      arr := arr + [snap];
      Write(SnapshotKey(creatorId, platform), SnapshotList(arr));
    }

    /** `getContacts`, defaulting to the empty list. */
    function GetContacts(): seq<Contact>
      reads this
    {
      match Read(ContactsKey)
      case Some(ContactList(s)) => s
      case _ => []
    }

    method SetContacts(contacts: seq<Contact>)
      modifies this`data
      ensures data == old(data)[Ns(ContactsKey) := Stored(ContactList(contacts))]
      ensures GetContacts() == contacts
      ensures GetCampaigns() == old(GetCampaigns())
    {
      Write(ContactsKey, ContactList(contacts));
    }

    /** `getCampaigns`, defaulting to the empty list. */
    function GetCampaigns(): seq<Campaign>
      reads this
    {
      match Read(CampaignsKey)
      case Some(CampaignList(s)) => s
      case _ => []
    }

    method SetCampaigns(campaigns: seq<Campaign>)
      modifies this`data
      ensures data == old(data)[Ns(CampaignsKey) := Stored(CampaignList(campaigns))]
      ensures GetCampaigns() == campaigns
      ensures GetContacts() == old(GetContacts())
    {
      Write(CampaignsKey, CampaignList(campaigns));
    }
  }
}
