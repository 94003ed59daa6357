/** The admin panel (AdminPanel.tsx): a status-filtered view of one
    collection, and the approve and delete actions, which change the local
    collections only after the backend reports success. */
module Moderation {
  import opened Basics
  import opened Listings
  import opened Feed

  datatype Action = Approve | Delete

  /** `statusFilter`: the panel lists either the PENDING or the APPROVED items. */
  datatype ReviewFilter = PendingTab | ApprovedTab

  function StatusOf(filter: ReviewFilter): Status
  {
    if filter == PendingTab then Pending else Approved
  }

  /** The request sent to the backend table of the item's kind. */
  datatype GatewayRequest =
    | UpdateStatus(table: string, id: string, status: Status)
    | DeleteRow(table: string, id: string)

  /** How an action ended: the admin declined the confirmation, the
      backend accepted the change, or it reported an error (an alert). */
  datatype ActionOutcome = Cancelled | Completed | Failed

  /** The backend table of each collection. */
  function TableOf(kind: AppMode): string
  {
    match kind
    case Estate => "properties"
    case Jobs => "jobs"
    case Services => "services"
  }

  function RequestFor(action: Action, kind: AppMode, id: string): GatewayRequest
  {
    if action == Approve then UpdateStatus(TableOf(kind), id, Approved)
    else DeleteRow(TableOf(kind), id)
  }

  /** `prev.map(p => p.id === id ? { ...p, status: 'APPROVED' } : p)`: the
      items carrying `id` become APPROVED, and nothing else changes. */
  function WithApproved(items: seq<Listing>, id: string): (r: seq<Listing>)
    ensures |r| == |items|
    ensures forall i :: 0 <= i < |r| ==>
              && r[i].id == items[i].id
              && r[i].(status := items[i].status) == items[i]
              && r[i].status == (if items[i].id == id then Approved else items[i].status)
  {
    seq(|items|, i requires 0 <= i < |items| =>
      if items[i].id == id then items[i].(status := Approved) else items[i])
  }

  /** `prev.filter(p => p.id !== id)`: every item carrying `id` is gone, the
      others stay in their order. */
  function WithoutId(items: seq<Listing>, id: string): (r: seq<Listing>)
    ensures IsSubsequence(r, items)
    ensures forall x :: x in r <==> x in items && x.id != id
  {
    if items == [] then []
    else if items[0].id != id then [items[0]] + WithoutId(items[1..], id)
    else WithoutId(items[1..], id)
  }

  /** `items.filter(it => it.status === statusFilter)`. */
  function ReviewList(items: seq<Listing>, filter: ReviewFilter): (r: seq<Listing>)
    ensures IsSubsequence(r, items)
    ensures forall x :: x in r <==> x in items && x.status == StatusOf(filter)
  {
    if items == [] then []
    else if items[0].status == StatusOf(filter) then [items[0]] + ReviewList(items[1..], filter)
    else ReviewList(items[1..], filter)
  }

  /** The list keeps every copy of an item with the filtered status, as
      many times as the collection holds it, and no other item. */
  lemma {:induction false} ReviewListCounts(items: seq<Listing>, filter: ReviewFilter)
    ensures forall x :: multiset(ReviewList(items, filter))[x] ==
              (if x.status == StatusOf(filter) then multiset(items)[x] else 0)
  {
    if items != [] {
      ReviewListCounts(items[1..], filter);
      assert items == [items[0]] + items[1..];
    }
  }

  // -------------------------------------------------------------- lemmas

  /** Deleting from a concatenation deletes from each part. */
  lemma {:induction false} WithoutIdAppend(a: seq<Listing>, b: seq<Listing>, id: string)
    ensures WithoutId(a + b, id) == WithoutId(a, id) + WithoutId(b, id)
  {
    if a != [] {
      assert (a + b)[0] == a[0] && (a + b)[1..] == a[1..] + b;
      WithoutIdAppend(a[1..], b, id);
    } else {
      assert a + b == b;
    }
  }

  /** Deleting an id no item carries changes nothing; deleting the id every
      item carries leaves nothing. */
  lemma {:induction false} WithoutIdAllOrNothing(items: seq<Listing>, id: string)
    ensures (forall x :: x in items ==> x.id != id) ==> WithoutId(items, id) == items
    ensures (forall x :: x in items ==> x.id == id) ==> WithoutId(items, id) == []
  {
    if items != [] {
      WithoutIdAllOrNothing(items[1..], id);
      assert forall x :: x in items[1..] ==> x in items;
      assert items == [items[0]] + items[1..];
    }
  }


  /** Approving twice is approving once. */
  lemma ApproveIdempotent(items: seq<Listing>, id: string)
    ensures WithApproved(WithApproved(items, id), id) == WithApproved(items, id)
  {
    var once := WithApproved(items, id);
    var twice := WithApproved(once, id);
    forall i | 0 <= i < |items|
      ensures twice[i] == once[i]
    {
      assert twice[i].(status := once[i].status) == once[i];
    }
  }

  /** Approving items that are already APPROVED leaves the collection as it was. */
  lemma ApproveApprovedIsNoOp(items: seq<Listing>, id: string)
    requires forall x :: x in items && x.id == id ==> x.status == Approved
    ensures WithApproved(items, id) == items
  {
    var r := WithApproved(items, id);
    forall i | 0 <= i < |items|
      ensures r[i] == items[i]
    {
      assert items[i] in items;
      assert r[i].(status := items[i].status) == items[i];
    }
  }

  /** A deleted id never shows up again in the feed, whatever the filter. */
  lemma DeletedNeverShown(items: seq<Listing>, id: string, f: FeedFilter, tr: Translations)
    ensures forall x :: x in Filtered(WithoutId(items, id), f, tr) ==> x.id != id
  {
  }

  /** A PENDING item is kept out of the public feed; once approved it is in
      it exactly when the search, deal-type, city and saved tests pass. */
  lemma ApprovalPublishes(item: Listing, f: FeedFilter, tr: Translations)
    requires !f.showOnlyMyAds && item.status == Pending
    ensures !Shown(item, f, tr)
    ensures Shown(item.(status := Approved), f, tr) <==>
              && MatchesSearch(item, f.searchTerm)
              && MatchesEstateFilter(item, f.appMode, f.estateFilter)
              && MatchesCity(item, f.cityFilter, f.lang, tr)
              && MatchesSaved(item, f)
  {
    var a := item.(status := Approved);
    assert a.title == item.title && a.city == item.city && a.id == item.id;
    assert a.Property? <==> item.Property?;
    assert a.Property? ==> a.dealType == item.dealType;
  }

  // ---------------------------------------------------------- panel state

  class AdminPanel {
    const store: ListingStore
    var activeTab: AppMode
    var statusFilter: ReviewFilter
    /** `isActionLoading`: the id of the item being acted on, or null. */
    var isActionLoading: Option<string>
    var selectedItem: Option<Listing>
    /** Every value `isActionLoading` has been set to, in order. */
    ghost var loadingHistory: seq<Option<string>>

    constructor (store: ListingStore)
      ensures this.store == store
      ensures activeTab == Estate && statusFilter == PendingTab
      ensures isActionLoading == None && selectedItem == None && loadingHistory == []
    {
      this.store := store;
      activeTab, statusFilter := Estate, PendingTab;
      isActionLoading, selectedItem := None, None;
      loadingHistory := [];
    }

    /** The cards in the list: the active tab's items with the filtered status. */
    function ListedItems(): (r: seq<Listing>)
      reads this, store
      ensures IsSubsequence(r, store.Collection(activeTab))
      ensures forall x :: x in r <==> x in store.Collection(activeTab) && x.status == StatusOf(statusFilter)
      ensures forall x :: multiset(r)[x] ==
                (if x.status == StatusOf(statusFilter) then multiset(store.Collection(activeTab))[x] else 0)
    {
      ReviewListCounts(store.Collection(activeTab), statusFilter);
      ReviewList(store.Collection(activeTab), statusFilter)
    }

    /** `handleAction`. `confirmed` is the answer to the delete confirmation
        and `gatewayOk` whether the backend reported no error. */
    method HandleAction(id: string, kind: AppMode, action: Action, confirmed: bool, gatewayOk: bool)
      returns (outcome: ActionOutcome, sent: Option<GatewayRequest>)
      modifies this, store
      ensures activeTab == old(activeTab) && statusFilter == old(statusFilter)
      ensures action == Delete && !confirmed ==>
                outcome == Cancelled && sent == None && unchanged(this) && unchanged(store)
      ensures action == Approve || confirmed ==>
                && sent == Some(RequestFor(action, kind, id))
                && outcome == (if gatewayOk then Completed else Failed)
                && loadingHistory == old(loadingHistory) + [Some(id), None]
                && isActionLoading == None
      ensures outcome == Completed ==>
                && selectedItem == None
                && store.Collection(kind) == (if action == Approve then WithApproved(old(store.Collection(kind)), id)
                                              else WithoutId(old(store.Collection(kind)), id))
                && forall m :: m != kind ==> store.Collection(m) == old(store.Collection(m))
      ensures outcome != Completed ==> unchanged(store) && selectedItem == old(selectedItem)
    {
      if action == Delete && !confirmed {
        return Cancelled, None;
      }
      isActionLoading := Some(id);
      loadingHistory := loadingHistory + [Some(id)];
      sent := Some(RequestFor(action, kind, id));
      if gatewayOk {
        if action == Approve {
          match kind
          case Estate => store.properties := WithApproved(store.properties, id);
          case Jobs => store.jobs := WithApproved(store.jobs, id);
          case Services => store.services := WithApproved(store.services, id);
        } else {
          match kind
          case Estate => store.properties := WithoutId(store.properties, id);
          case Jobs => store.jobs := WithoutId(store.jobs, id);
          case Services => store.services := WithoutId(store.services, id);
        }
        selectedItem := None;
        outcome := Completed;
      } else {
        outcome := Failed;
      }
      isActionLoading := None;
      loadingHistory := loadingHistory + [None];
    }
  }
}
