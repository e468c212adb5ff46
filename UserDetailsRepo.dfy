/** The local `user_details` table (one profile row per user) and the
    `user_additional_info` table (free-form key/value lines the user adds
    to the profile, kept in the order they were entered). */
module UserDetailsRepo {
  import opened Common
  import opened SortedQuery
  import LocalRepo

  type Instant = LocalRepo.Instant

  // ---------------------------------------------------------------------
  // user_details
  // ---------------------------------------------------------------------

  datatype Details = Details(
    userId: string, fullName: string, occupation: string,
    companyName: Option<string>, role: Option<string>, email: Option<string>,
    phoneNumber: Option<string>, businessAddress: Option<string>,
    website: Option<string>, linkedin: Option<string>,
    createdAt: Instant, updatedAt: Instant)

  /** What a caller passes to `upsert`; the optional fields may be absent. */
  datatype DetailsInput = DetailsInput(
    fullName: string, occupation: string,
    companyName: Option<string>, role: Option<string>, email: Option<string>,
    phoneNumber: Option<string>, businessAddress: Option<string>,
    website: Option<string>, linkedin: Option<string>)

  /** `value || null`: an absent or empty text is stored as NULL. */
  function NullIfEmpty(v: Option<string>): (r: Option<string>)
    ensures r.None? <==> v.None? || v.value == ""
    ensures r.Some? ==> r == v
  {
    if v.Some? && v.value != "" then v else None
  }

  /** The row `INSERT ... ON CONFLICT(user_id) DO UPDATE` leaves: every
      listed column from the input (optional ones through `NullIfEmpty`),
      `updated_at` now, and `created_at` kept from an existing row. */
  function StoredDetails(existing: Option<Details>, userId: string, d: DetailsInput, now: Instant): (r: Details)
    ensures r.userId == userId && r.fullName == d.fullName && r.occupation == d.occupation
    ensures r.companyName == NullIfEmpty(d.companyName) && r.role == NullIfEmpty(d.role)
    ensures r.email == NullIfEmpty(d.email) && r.phoneNumber == NullIfEmpty(d.phoneNumber)
    ensures r.businessAddress == NullIfEmpty(d.businessAddress) && r.website == NullIfEmpty(d.website)
    ensures r.linkedin == NullIfEmpty(d.linkedin)
    ensures r.updatedAt == now
    ensures r.createdAt == if existing.Some? then existing.value.createdAt else now
  {
    Details(userId, d.fullName, d.occupation,
            NullIfEmpty(d.companyName), NullIfEmpty(d.role), NullIfEmpty(d.email),
            NullIfEmpty(d.phoneNumber), NullIfEmpty(d.businessAddress),
            NullIfEmpty(d.website), NullIfEmpty(d.linkedin),
            if existing.Some? then existing.value.createdAt else now, now)
  }

  /** Saving the same profile twice changes nothing but `updated_at`. */
  lemma UpsertTwice(existing: Option<Details>, userId: string, d: DetailsInput, t1: Instant, t2: Instant)
    ensures StoredDetails(Some(StoredDetails(existing, userId, d, t1)), userId, d, t2)
            == StoredDetails(existing, userId, d, t1).(updatedAt := t2)
  {
  }

  // ---------------------------------------------------------------------
  // user_additional_info
  // ---------------------------------------------------------------------

  datatype InfoItem = InfoItem(key: string, value: string)

  datatype InfoRow = InfoRow(id: string, userId: string, key: string, value: string,
                             sortOrder: int, createdAt: Instant, updatedAt: Instant)

  function SortOrder(r: InfoRow): int {
    r.sortOrder
  }

  /** `replaceAll` skips an item whose key and value are both blank. */
  predicate Kept(item: InfoItem) {
    !IsBlank(item.key) || !IsBlank(item.value)
  }

  function KeptRow(userId: string, items: seq<InfoItem>, ids: seq<string>, now: Instant, i: nat): InfoRow
    requires i < |items| && |ids| == |items|
  {
    InfoRow(ids[i], userId, items[i].key, items[i].value, i, now, now)
  }

  /** The rows `replaceAll` inserts for the first n items, by id. */
  function KeptRows(userId: string, items: seq<InfoItem>, ids: seq<string>, now: Instant, n: nat): (m: map<string, InfoRow>)
    requires n <= |items| && |ids| == |items|
    ensures forall id :: id in m ==> m[id].id == id && m[id].userId == userId
  {
    if n == 0 then map[]
    else
      var m := KeptRows(userId, items, ids, now, n - 1);
      if Kept(items[n - 1]) then m[ids[n - 1] := KeptRow(userId, items, ids, now, n - 1)] else m
  }

  /** The same rows, in input order. */
  function KeptList(userId: string, items: seq<InfoItem>, ids: seq<string>, now: Instant, n: nat): (s: seq<InfoRow>)
    requires n <= |items| && |ids| == |items|
    ensures forall k :: 0 <= k < |s| ==> 0 <= s[k].sortOrder < n
  {
    if n == 0 then []
    else
      var s := KeptList(userId, items, ids, now, n - 1);
      if Kept(items[n - 1]) then s + [KeptRow(userId, items, ids, now, n - 1)] else s
  }

  /** Gaps aside, the listed rows carry their item's position, so they are
      in strictly increasing `sort_order`. */
  lemma {:induction false} KeptListIncreasing(userId: string, items: seq<InfoItem>, ids: seq<string>, now: Instant, n: nat)
    requires n <= |items| && |ids| == |items|
    ensures StrictlySortedBy(KeptList(userId, items, ids, now, n), SortOrder)
  {
    if n > 0 {
      KeptListIncreasing(userId, items, ids, now, n - 1);
    }
  }

  /** The first n items insert rows only under the first n ids. */
  lemma {:induction false} KeptRowsKeys(userId: string, items: seq<InfoItem>, ids: seq<string>, now: Instant, n: nat)
    requires n <= |items| && |ids| == |items|
    ensures forall id :: id in KeptRows(userId, items, ids, now, n) ==> id in ids[..n]
  {
    if n > 0 {
      KeptRowsKeys(userId, items, ids, now, n - 1);
      assert ids[..n - 1] <= ids[..n];
    }
  }

  /** A row is among the inserted ones exactly when it is in the list. */
  lemma {:induction false} KeptRowsMatchList(userId: string, items: seq<InfoItem>, ids: seq<string>, now: Instant, n: nat)
    requires n <= |items| && |ids| == |items| && Distinct(ids)
    ensures forall row :: row in KeptList(userId, items, ids, now, n) <==>
      row.id in KeptRows(userId, items, ids, now, n) && KeptRows(userId, items, ids, now, n)[row.id] == row
  {
    if n > 0 {
      KeptRowsMatchList(userId, items, ids, now, n - 1);
      var m := KeptRows(userId, items, ids, now, n - 1);
      KeptRowsKeys(userId, items, ids, now, n - 1);
      assert ids[n - 1] !in ids[..n - 1];
    }
  }

  /** One more item inserts its row over whatever else is stored, or
      nothing when it is skipped. */
  lemma KeptRowsStep(others: map<string, InfoRow>, userId: string, items: seq<InfoItem>, ids: seq<string>,
                     now: Instant, i: nat)
    requires i < |items| && |ids| == |items|
    ensures Kept(items[i]) ==>
      others + KeptRows(userId, items, ids, now, i + 1) ==
      (others + KeptRows(userId, items, ids, now, i))[ids[i] := KeptRow(userId, items, ids, now, i)]
    ensures !Kept(items[i]) ==> KeptRows(userId, items, ids, now, i + 1) == KeptRows(userId, items, ids, now, i)
  {
    var before := KeptRows(userId, items, ids, now, i);
    if Kept(items[i]) {
      var row := KeptRow(userId, items, ids, now, i);
      assert (others + before)[ids[i] := row] == others + before[ids[i] := row];
    }
  }

  class ProfileTables {
    var details: map<string, Details>
    var info: map<string, InfoRow>

    ghost predicate Valid()
      reads this
    {
      && (forall u :: u in details ==> details[u].userId == u)
      && (forall id :: id in info ==> info[id].id == id)
    }

    constructor()
      ensures Valid() && details == map[] && info == map[]
    {
      details := map[];
      info := map[];
    }

    /** `UserDetailsTable.findByUserId`. */
    function FindByUserId(userId: string): (r: Option<Details>)
      reads this
      requires Valid()
      ensures r.Some? <==> userId in details
      ensures r.Some? ==> r.value.userId == userId
    {
      if userId in details then Some(details[userId]) else None
    }

    /** `UserDetailsTable.upsert`: one row per user, keyed by `user_id`. */
    method Upsert(userId: string, d: DetailsInput, now: Instant)
      requires Valid()
      modifies this`details
      ensures Valid()
      ensures details == old(details)[userId := StoredDetails(old(FindByUserId(userId)), userId, d, now)]
    {
      details := details[userId := StoredDetails(FindByUserId(userId), userId, d, now)];
    }

    /** The user's additional-info rows. */
    function InfoOf(userId: string): (r: set<InfoRow>)
      reads this
      ensures forall row :: row in r <==> row in info.Values && row.userId == userId
    {
      set id | id in info && info[id].userId == userId :: info[id]
    }

    /** `UserAdditionalInfoTable.findAllByUserId`: the user's rows ordered
        by `sort_order`. */
    method FindAllByUserId(userId: string) returns (r: seq<InfoRow>)
      ensures SortedBy(r, SortOrder) && Distinct(r)
      ensures forall row :: row in r <==> row in InfoOf(userId)
    {
      r := OrderBy(InfoOf(userId), SortOrder);
    }

    /** `deleteByUserId`: both the additional-info rows and the profile. */
    method DeleteByUserId(userId: string)
      requires Valid()
      modifies this
      ensures Valid()
      ensures details == old(details) - {userId}
      ensures info == map id | id in old(info) && old(info)[id].userId != userId :: old(info)[id]
      ensures FindByUserId(userId).None? && InfoOf(userId) == {}
    {
      info := map id | id in info && info[id].userId != userId :: info[id];
      details := details - {userId};
    }

    /** `replaceAll(user, items)`: deletes the user's rows, then inserts
        each kept item under a fresh id with its position as `sort_order`. */
    method ReplaceAll(userId: string, items: seq<InfoItem>, ids: seq<string>, now: Instant)
      requires Valid()
      requires |ids| == |items| && Distinct(ids)
      requires forall i :: 0 <= i < |ids| ==> ids[i] !in info
      modifies this`info
      ensures Valid()
      ensures info == (map id | id in old(info) && old(info)[id].userId != userId :: old(info)[id])
                      + KeptRows(userId, items, ids, now, |items|)
    {
      info := map id | id in info && info[id].userId != userId :: info[id];
      ghost var others := info;
      var i := 0;
      while i < |items|
        invariant 0 <= i <= |items|
        invariant info == others + KeptRows(userId, items, ids, now, i)
        invariant forall id :: id in others ==> others[id].id == id
      {
        KeptRowsStep(others, userId, items, ids, now, i);
        if Kept(items[i]) {
          info := info[ids[i] := InfoRow(ids[i], userId, items[i].key, items[i].value, i, now, now)];
        }
        i := i + 1;
      }
    }
  }

  /** After `replaceAll`, listing the user's rows gives back exactly the
      kept items, in the order they were given. */
  lemma ListingAfterReplace(info: map<string, InfoRow>, userId: string, items: seq<InfoItem>, ids: seq<string>,
                            now: Instant, listing: seq<InfoRow>)
    requires |ids| == |items| && Distinct(ids)
    requires forall i :: 0 <= i < |ids| ==> ids[i] !in info
    requires SortedBy(listing, SortOrder) && Distinct(listing)
    requires var after := (map id | id in info && info[id].userId != userId :: info[id])
                          + KeptRows(userId, items, ids, now, |items|);
             forall row :: row in listing <==> row in after.Values && row.userId == userId
    ensures listing == KeptList(userId, items, ids, now, |items|)
  {
    var kept := KeptList(userId, items, ids, now, |items|);
    var rows := KeptRows(userId, items, ids, now, |items|);
    var after := (map id | id in info && info[id].userId != userId :: info[id]) + rows;
    KeptRowsMatchList(userId, items, ids, now, |items|);
    KeptListIncreasing(userId, items, ids, now, |items|);
    forall row ensures row in listing <==> row in kept {
      if row in listing {
        var id :| id in after && after[id] == row;
        assert id in rows;
      }
      if row in kept {
        assert row.id in after && after[row.id] == row;
      }
    }
    forall i, j | 0 <= i < j < |listing| ensures SortOrder(listing[i]) != SortOrder(listing[j]) {
      assert listing[i] in listing && listing[j] in listing;
      DistinctRowsDistinctOrder(kept, listing[i], listing[j]);
    }
    SortedDistinctKeys(listing, SortOrder);
    StrictlySortedUnique(listing, kept, SortOrder);
  }

  /** In a strictly ordered listing, different rows have different keys. */
  lemma DistinctRowsDistinctOrder(s: seq<InfoRow>, a: InfoRow, b: InfoRow)
    requires StrictlySortedBy(s, SortOrder)
    requires a in s && b in s && a != b
    ensures SortOrder(a) != SortOrder(b)
  {
    var p :| 0 <= p < |s| && s[p] == a;
    var q :| 0 <= q < |s| && s[q] == b;
    if p < q {
      assert SortOrder(s[p]) < SortOrder(s[q]);
    } else {
      assert SortOrder(s[q]) < SortOrder(s[p]);
    }
  }
}
