/**
 * The data store of context/DataContext.tsx: one state cell per collection,
 * the settings record and the loading flag, and the actions that call the
 * backend and mirror a confirmed change locally (confirm-then-mutate).
 *
 * Every backend reply is an input, decoded from the reply shapes the backend
 * documents; None stands for the null that api.get and api.post resolve to
 * on any failure.
 */
module DataContext {
  import opened Wrappers
  import opened Json

  /**
   * A record of a collection: its `id` (None when undefined) and its other
   * properties. By convention `fields` never holds an "id" key, so that one
   * JavaScript object has one encoding (see Canonical).
   */
  datatype Entity = Entity(id: Option<string>, fields: map<string, Value>)

  /** The record follows the convention: its id is kept only in `id`. */
  predicate Canonical(e: Entity) {
    "id" !in e.fields
  }

  /** `{ success, id? }`: the reply to crud, create_booking, add_subscriber, save_plan and update_settings. */
  datatype Ack = Ack(success: bool, id: Option<string>)

  /** `{ allowed }`: the reply to check_ai_usage. */
  datatype UsageReply = UsageReply(allowed: bool)

  /** The reply to get_all_data; a field is None when it is absent or falsy. */
  datatype AllDataReply = AllDataReply(
    packages: Option<seq<Entity>>,
    destinations: Option<seq<Entity>>,
    services: Option<seq<Entity>>,
    cars: Option<seq<Entity>>,
    testimonials: Option<seq<Entity>>,
    faqs: Option<seq<Entity>>,
    posts: Option<seq<Entity>>,
    settings: Option<map<string, Value>>)

  /** The reply to get_admin_data; a field is None when it is absent or falsy. */
  datatype AdminDataReply = AdminDataReply(
    bookings: Option<seq<Entity>>,
    subscribers: Option<seq<Entity>>,
    generatedPlans: Option<seq<Entity>>)

  /** The tables createCrudActions is instantiated for, each bound to its own state cell. */
  datatype Table = Packages | Destinations | Services | Testimonials | Faqs | Posts | Subscribers

  /** A call of addNotification(kind, payload). */
  datatype Notification = Notification(kind: string, payload: map<string, Value>)

  /** The default site settings; their contents are not part of this model. */
  const InitialSettings: map<string, Value>

  /** The static fallback collections used when get_all_data fails; contents not modelled. */
  const StaticPackages: seq<Entity>
  const StaticDestinations: seq<Entity>
  const StaticServices: seq<Entity>

  /** `res && res.success`: the backend confirmed the change. */
  predicate Confirmed(res: Option<Ack>) {
    res.Some? && res.value.success
  }

  /** `{ ...item, id: res.id }`: the id the backend returned overrides any id in the item. */
  function Created(item: map<string, Value>, id: Option<string>): (e: Entity)
    ensures e.id == id && Canonical(e)
    ensures forall k :: k in item && k != "id" ==> k in e.fields && e.fields[k] == item[k]
    ensures e.fields.Keys == item.Keys - {"id"}
  {
    Entity(id, item - {"id"})
  }

  /** `prev.map(p => p.id === item.id ? item : p)`. */
  function Replaced(s: seq<Entity>, item: Entity): (r: seq<Entity>)
    ensures |r| == |s|
    ensures forall i :: 0 <= i < |s| && s[i].id == item.id ==> r[i] == item
    ensures forall i :: 0 <= i < |s| && s[i].id != item.id ==> r[i] == s[i]
    ensures forall i :: 0 <= i < |s| && Canonical(s[i]) && Canonical(item) ==> Canonical(r[i])
  {
    if s == [] then []
    else [if s[0].id == item.id then item else s[0]] + Replaced(s[1..], item)
  }

  /** `prev.filter(p => p.id !== id)`. */
  function Removed(s: seq<Entity>, id: string): (r: seq<Entity>)
    ensures |r| <= |s|
    ensures forall e :: e in r <==> e in s && e.id != Some(id)
  {
    if s == [] then []
    else (if s[0].id == Some(id) then [] else [s[0]]) + Removed(s[1..], id)
  }

  /** `prev.map(b => b.id === id ? { ...b, status } : b)`. */
  function WithStatus(s: seq<Entity>, id: string, status: string): (r: seq<Entity>)
    ensures |r| == |s|
    ensures forall i :: 0 <= i < |s| ==> r[i].id == s[i].id
    ensures forall i :: 0 <= i < |s| && s[i].id == Some(id) ==> r[i].fields == s[i].fields["status" := Str(status)]
    ensures forall i :: 0 <= i < |s| && s[i].id != Some(id) ==> r[i] == s[i]
    ensures forall i :: 0 <= i < |s| && Canonical(s[i]) ==> Canonical(r[i])
  {
    if s == [] then []
    else
      var b := s[0];
      [if b.id == Some(id) then Entity(b.id, b.fields["status" := Str(status)]) else b]
        + WithStatus(s[1..], id, status)
  }

  /** The number of records carrying `id`. */
  function Matches(s: seq<Entity>, id: string): nat {
    if s == [] then 0 else (if s[0].id == Some(id) then 1 else 0) + Matches(s[1..], id)
  }

  /** No two records share an id (the backend's guarantee). */
  predicate UniqueIds(s: seq<Entity>) {
    forall i, j :: 0 <= i < j < |s| && s[i].id.Some? ==> s[i].id != s[j].id
  }

  /** `{ ...base, ...over }`: every key of both, the overlay's value winning. */
  function Overlay(base: map<string, Value>, over: map<string, Value>): (m: map<string, Value>)
    ensures m.Keys == base.Keys + over.Keys
    ensures forall k :: k in over ==> m[k] == over[k]
    ensures forall k :: k in base && k !in over ==> m[k] == base[k]
  {
    base + over
  }

  /** `response.settings && response.settings.siteName`. */
  predicate HasSiteName(settings: Option<map<string, Value>>) {
    settings.Some? && "siteName" in settings.value && Truthy(settings.value["siteName"])
  }

  /** saveGeneratedPlan: true exactly when the backend confirmed; nothing is mirrored locally. */
  function SaveGeneratedPlan(res: Option<Ack>): (saved: bool)
    ensures saved <==> res.Some? && res.value.success
  {
    Confirmed(res)
  }

  /** checkAiUsage: the backend's `allowed`, and false when the call failed. */
  function CheckAiUsage(res: Option<UsageReply>): (allowed: bool)
    ensures res.None? ==> !allowed
    ensures res.Some? ==> allowed == res.value.allowed
  {
    if res.Some? then res.value.allowed else false
  }

  // Lemmas about the local updates

  /** The filter distributes over concatenation: it keeps the surviving records in their order. */
  lemma {:induction false} RemovedConcat(a: seq<Entity>, b: seq<Entity>, id: string)
    ensures Removed(a + b, id) == Removed(a, id) + Removed(b, id)
  {
    if a == [] {
      assert a + b == b;
    } else {
      assert (a + b)[1..] == a[1..] + b;
      RemovedConcat(a[1..], b, id);
    }
  }

  /** Removing twice is removing once. */
  lemma {:induction false} RemovedIdempotent(s: seq<Entity>, id: string)
    ensures Removed(Removed(s, id), id) == Removed(s, id)
  {
    if s != [] {
      var head := if s[0].id == Some(id) then [] else [s[0]];
      RemovedConcat(head, Removed(s[1..], id), id);
      RemovedIdempotent(s[1..], id);
    }
  }

  /** A collection without that id is left as it is. */
  lemma {:induction false} RemovedAbsent(s: seq<Entity>, id: string)
    requires forall e :: e in s ==> e.id != Some(id)
    ensures Removed(s, id) == s
  {
    if s != [] {
      assert s[0] in s;
      assert forall e :: e in s[1..] ==> e in s;
      RemovedAbsent(s[1..], id);
      assert [s[0]] + s[1..] == s;
    }
  }

  /** The filter drops exactly the records carrying the id. */
  lemma {:induction false} RemovedLength(s: seq<Entity>, id: string)
    ensures |Removed(s, id)| == |s| - Matches(s, id)
  {
    if s != [] {
      RemovedLength(s[1..], id);
    }
  }

  /** In a collection with unique ids at most one record carries a given id. */
  lemma {:induction false} UniqueMatchesAtMostOne(s: seq<Entity>, id: string)
    requires UniqueIds(s)
    ensures Matches(s, id) <= 1
    ensures Matches(s, id) == 1 <==> exists i :: 0 <= i < |s| && s[i].id == Some(id)
  {
    if s != [] {
      assert UniqueIds(s[1..]) by {
        forall i, j | 0 <= i < j < |s[1..]| && s[1..][i].id.Some?
          ensures s[1..][i].id != s[1..][j].id
        {
          assert s[i + 1] == s[1..][i] && s[j + 1] == s[1..][j];
        }
      }
      UniqueMatchesAtMostOne(s[1..], id);
      if s[0].id == Some(id) {
        NoMatchElsewhere(s, id);
      }
      if exists i :: 0 <= i < |s| && s[i].id == Some(id) {
        var i :| 0 <= i < |s| && s[i].id == Some(id);
        if i > 0 {
          assert s[1..][i - 1].id == Some(id);
        }
      }
      if exists i :: 0 <= i < |s[1..]| && s[1..][i].id == Some(id) {
        var i :| 0 <= i < |s[1..]| && s[1..][i].id == Some(id);
        assert s[i + 1].id == Some(id);
      }
    }
  }

  lemma NoMatchElsewhere(s: seq<Entity>, id: string)
    requires UniqueIds(s) && |s| > 0 && s[0].id == Some(id)
    ensures Matches(s[1..], id) == 0
  {
    forall i | 0 <= i < |s[1..]|
      ensures s[1..][i].id != Some(id)
    {
      assert s[1..][i] == s[i + 1];
    }
    NoneMatch(s[1..], id);
  }

  lemma {:induction false} NoneMatch(s: seq<Entity>, id: string)
    requires forall i :: 0 <= i < |s| ==> s[i].id != Some(id)
    ensures Matches(s, id) == 0
  {
    if s != [] {
      assert forall i :: 0 <= i < |s[1..]| ==> s[1..][i] == s[i + 1];
      NoneMatch(s[1..], id);
    }
  }

  /** With unique ids, removing an id that is present shortens the collection by exactly one. */
  lemma RemoveOneOfUnique(s: seq<Entity>, id: string)
    requires UniqueIds(s)
    requires exists i :: 0 <= i < |s| && s[i].id == Some(id)
    ensures |Removed(s, id)| == |s| - 1
  {
    UniqueMatchesAtMostOne(s, id);
    RemovedLength(s, id);
  }

  /** Replacing twice with the same record is replacing once. */
  lemma ReplacedIdempotent(s: seq<Entity>, item: Entity)
    ensures Replaced(Replaced(s, item), item) == Replaced(s, item)
  {
  }

  /** Setting the same status twice is setting it once. */
  lemma WithStatusIdempotent(s: seq<Entity>, id: string, status: string)
    ensures WithStatus(WithStatus(s, id, status), id, status) == WithStatus(s, id, status)
  {
    var once := WithStatus(s, id, status);
    var twice := WithStatus(once, id, status);
    forall i | 0 <= i < |s|
      ensures twice[i] == once[i]
    {
      if s[i].id == Some(id) {
        assert once[i].fields["status" := Str(status)] == once[i].fields;
      }
    }
  }

  /** A status update leaves every property of a booking other than `status` as it was. */
  lemma WithStatusOnlyStatus(s: seq<Entity>, id: string, status: string, i: nat, k: string)
    requires i < |s| && k != "status"
    ensures WithStatus(s, id, status)[i].id == s[i].id
    ensures k in WithStatus(s, id, status)[i].fields <==> k in s[i].fields
    ensures k in s[i].fields ==> WithStatus(s, id, status)[i].fields[k] == s[i].fields[k]
    ensures "status" in WithStatus(s, id, status)[i].fields <==> "status" in s[i].fields || s[i].id == Some(id)
  {
  }

  /** The overlay of a reply that passed the siteName test keeps a truthy siteName and every default key. */
  lemma MergedSettingsNamed(over: map<string, Value>)
    requires HasSiteName(Some(over))
    ensures var m := Overlay(InitialSettings, over);
            InitialSettings.Keys <= m.Keys && "siteName" in m && Truthy(m["siteName"]) && HasSiteName(Some(m))
  {
  }

  /** The state cells of DataProvider. */
  class Store {
    var packages: seq<Entity>
    var destinations: seq<Entity>
    var services: seq<Entity>
    var cars: seq<Entity>
    var testimonials: seq<Entity>
    var faqs: seq<Entity>
    var posts: seq<Entity>
    var bookings: seq<Entity>
    var subscribers: seq<Entity>
    var generatedPlans: seq<Entity>
    var settings: map<string, Value>
    var isLoading: bool
    /** Every value passed to setIsLoading, in order. */
    ghost var loadingWrites: seq<bool>
    /** Every addNotification call, in order. */
    ghost var notifications: seq<Notification>

    /** The initial state of the useState hooks. */
    constructor ()
      ensures packages == [] && destinations == [] && services == [] && cars == []
      ensures testimonials == [] && faqs == [] && posts == []
      ensures bookings == [] && subscribers == [] && generatedPlans == []
      ensures settings == InitialSettings && isLoading
      ensures loadingWrites == [] && notifications == []
    {
      packages, destinations, services, cars := [], [], [], [];
      testimonials, faqs, posts := [], [], [];
      bookings, subscribers, generatedPlans := [], [], [];
      settings, isLoading := InitialSettings, true;
      loadingWrites, notifications := [], [];
    }

    /** The state cell a table's setter writes. */
    function Collection(t: Table): seq<Entity>
      reads this
    {
      match t
      case Packages => packages
      case Destinations => destinations
      case Services => services
      case Testimonials => testimonials
      case Faqs => faqs
      case Posts => posts
      case Subscribers => subscribers
    }

    /** Nothing but the state cell of `t` differs from the previous state. */
    twostate predicate OnlyChanged(t: Table)
      reads this
    {
      && (forall u :: u != t ==> Collection(u) == old(Collection(u)))
      && cars == old(cars) && bookings == old(bookings) && generatedPlans == old(generatedPlans)
      && settings == old(settings) && isLoading == old(isLoading)
      && loadingWrites == old(loadingWrites) && notifications == old(notifications)
    }

    /** The setter createCrudActions was given for `t`. */
    method SetCollection(t: Table, s: seq<Entity>)
      modifies this
      ensures Collection(t) == s
      ensures OnlyChanged(t)
    {
      match t
      case Packages => packages := s;
      case Destinations => destinations := s;
      case Services => services := s;
      case Testimonials => testimonials := s;
      case Faqs => faqs := s;
      case Posts => posts := s;
      case Subscribers => subscribers := s;
    }

    /** add of createCrudActions: append the created record once the backend confirms. */
    method Add(t: Table, item: map<string, Value>, res: Option<Ack>) returns (ok: bool)
      modifies this
      ensures ok == Confirmed(res)
      ensures ok ==> Collection(t) == old(Collection(t)) + [Created(item, res.value.id)]
      ensures !ok ==> Collection(t) == old(Collection(t))
      ensures OnlyChanged(t)
    {
      if Confirmed(res) {
        SetCollection(t, Collection(t) + [Created(item, res.value.id)]);
        return true;
      }
      return false;
    }

    /** update of createCrudActions: replace the records with the item's id once the backend confirms. */
    method Update(t: Table, item: Entity, res: Option<Ack>) returns (ok: bool)
      modifies this
      ensures ok == Confirmed(res)
      ensures Collection(t) == if ok then Replaced(old(Collection(t)), item) else old(Collection(t))
      ensures OnlyChanged(t)
    {
      if Confirmed(res) {
        SetCollection(t, Replaced(Collection(t), item));
        return true;
      }
      return false;
    }

    /** remove of createCrudActions: drop the records with that id once the backend confirms. */
    method Remove(t: Table, id: string, res: Option<Ack>) returns (ok: bool)
      modifies this
      ensures ok == Confirmed(res)
      ensures Collection(t) == if ok then Removed(old(Collection(t)), id) else old(Collection(t))
      ensures OnlyChanged(t)
    {
      if Confirmed(res) {
        SetCollection(t, Removed(Collection(t), id));
        return true;
      }
      return false;
    }

    /** addBooking: notify on success; the new booking is not mirrored locally. */
    method AddBooking(booking: map<string, Value>, res: Option<Ack>) returns (ok: bool)
      modifies this`notifications
      ensures ok == Confirmed(res)
      ensures notifications == old(notifications) + if ok then [Notification("booking", booking)] else []
    {
      if Confirmed(res) {
        notifications := notifications + [Notification("booking", booking)];
        return true;
      }
      return false;
    }

    /** updateBookingStatus: patch the status of the matching bookings once the backend confirms. */
    method UpdateBookingStatus(id: string, status: string, res: Option<Ack>) returns (ok: bool)
      modifies this`bookings
      ensures ok == Confirmed(res)
      ensures bookings == if ok then WithStatus(old(bookings), id, status) else old(bookings)
    {
      if Confirmed(res) {
        bookings := WithStatus(bookings, id, status);
        return true;
      }
      return false;
    }

    /** addSubscriber: notify on success; the subscriber list is not mirrored locally. */
    method AddSubscriber(email: string, res: Option<Ack>) returns (ok: bool)
      modifies this`notifications
      ensures ok == Confirmed(res)
      ensures notifications == old(notifications) + if ok then [Notification("subscriber", map["email" := Str(email)])] else []
    {
      if Confirmed(res) {
        notifications := notifications + [Notification("subscriber", map["email" := Str(email)])];
        return true;
      }
      return false;
    }

    /** updateSettings: replace the settings wholesale once the backend confirms. */
    method UpdateSettings(newSettings: map<string, Value>, res: Option<Ack>) returns (ok: bool)
      modifies this`settings
      ensures ok == Confirmed(res)
      ensures settings == if ok then newSettings else old(settings)
    {
      if Confirmed(res) {
        settings := newSettings;
        return true;
      }
      return false;
    }

    /**
     * The merge rules of fetchAllData: a present reply overwrites exactly the
     * collections it carries and overlays its settings on the defaults only
     * when they have a truthy siteName; a failed call puts the static
     * fallbacks in packages, destinations and services and leaves the rest.
     */
    twostate predicate PublicMerged(response: Option<AllDataReply>)
      reads this
    {
      && (response.None? ==>
            && packages == StaticPackages && destinations == StaticDestinations && services == StaticServices
            && cars == old(cars) && testimonials == old(testimonials) && faqs == old(faqs) && posts == old(posts))
      && (response.Some? ==>
            && packages == response.value.packages.GetOr(old(packages))
            && destinations == response.value.destinations.GetOr(old(destinations))
            && services == response.value.services.GetOr(old(services))
            && cars == response.value.cars.GetOr(old(cars))
            && testimonials == response.value.testimonials.GetOr(old(testimonials))
            && faqs == response.value.faqs.GetOr(old(faqs))
            && posts == response.value.posts.GetOr(old(posts)))
      && settings == if response.Some? && HasSiteName(response.value.settings)
                     then Overlay(InitialSettings, response.value.settings.value)
                     else old(settings)
    }

    /** The merge rules of fetchAdminData: only the fields a present reply carries overwrite their cells. */
    twostate predicate AdminMerged(response: Option<AdminDataReply>)
      reads this
    {
      && (response.None? ==>
            bookings == old(bookings) && subscribers == old(subscribers) && generatedPlans == old(generatedPlans))
      && (response.Some? ==>
            && bookings == response.value.bookings.GetOr(old(bookings))
            && subscribers == response.value.subscribers.GetOr(old(subscribers))
            && generatedPlans == response.value.generatedPlans.GetOr(old(generatedPlans)))
    }

    /** The body of fetchAllData's try block. */
    method MergeAllData(response: Option<AllDataReply>)
      modifies this`packages, this`destinations, this`services, this`cars, this`testimonials
      modifies this`faqs, this`posts, this`settings
      ensures PublicMerged(response)
    {
      if response.None? {
        packages, destinations, services := StaticPackages, StaticDestinations, StaticServices;
        return;
      }
      var r := response.value;
      packages, destinations, services := r.packages.GetOr(packages), r.destinations.GetOr(destinations), r.services.GetOr(services);
      cars, testimonials := r.cars.GetOr(cars), r.testimonials.GetOr(testimonials);
      faqs, posts := r.faqs.GetOr(faqs), r.posts.GetOr(posts);
      if HasSiteName(r.settings) {
        settings := Overlay(InitialSettings, r.settings.value);
      }
    }

    /** setIsLoading(value), recorded in the log of loading-flag writes. */
    method SetLoading(value: bool)
      modifies this`isLoading, this`loadingWrites
      ensures isLoading == value && loadingWrites == old(loadingWrites) + [value]
    {
      isLoading := value;
      loadingWrites := loadingWrites + [value];
    }

    /**
     * fetchAllData: raise the loading flag unless this is a background refresh,
     * merge the reply, then lower the flag again in the finally block.
     */
    method FetchAllData(background: bool, response: Option<AllDataReply>)
      modifies this`packages, this`destinations, this`services, this`cars, this`testimonials
      modifies this`faqs, this`posts, this`settings, this`isLoading, this`loadingWrites
      ensures PublicMerged(response)
      ensures isLoading == if background then old(isLoading) else false
      ensures loadingWrites == old(loadingWrites) + if background then [] else [true, false]
    {
      if !background {
        SetLoading(true);
      }
      MergeAllData(response);
      if !background {
        SetLoading(false);
      }
    }

    /** fetchAdminData: merge the admin reply field by field; a failed call changes nothing. */
    method FetchAdminData(response: Option<AdminDataReply>)
      modifies this`bookings, this`subscribers, this`generatedPlans
      ensures AdminMerged(response)
    {
      if response.Some? {
        var r := response.value;
        bookings := r.bookings.GetOr(bookings);
        subscribers := r.subscribers.GetOr(subscribers);
        generatedPlans := r.generatedPlans.GetOr(generatedPlans);
      }
    }

    /**
     * The mount effect: a foreground fetchAllData, then fetchAdminData only
     * when a session token is stored. The two write disjoint state cells.
     */
    method Bootstrap(token: Option<string>, publicReply: Option<AllDataReply>, adminReply: Option<AdminDataReply>)
      returns (adminFetched: bool)
      modifies this`packages, this`destinations, this`services, this`cars, this`testimonials
      modifies this`faqs, this`posts, this`settings, this`isLoading, this`loadingWrites
      modifies this`bookings, this`subscribers, this`generatedPlans
      ensures adminFetched <==> token.Some? && token.value != ""
      ensures PublicMerged(publicReply)
      ensures AdminMerged(if adminFetched then adminReply else None)
      ensures !isLoading && loadingWrites == old(loadingWrites) + [true, false]
    {
      FetchAllData(false, publicReply);
      adminFetched := token.Some? && token.value != "";
      if adminFetched {
        FetchAdminData(adminReply);
      }
    }

    /** Every state cell, ghost logs included, equals the other store's. */
    ghost predicate SameState(other: Store)
      reads this, other
    {
      && packages == other.packages && destinations == other.destinations && services == other.services
      && cars == other.cars && testimonials == other.testimonials && faqs == other.faqs && posts == other.posts
      && bookings == other.bookings && subscribers == other.subscribers && generatedPlans == other.generatedPlans
      && settings == other.settings && isLoading == other.isLoading
      && loadingWrites == other.loadingWrites && notifications == other.notifications
    }
  }

  /**
   * The bootstrap does not await the public fetch before the admin fetch, so
   * their replies may arrive in either order; both orders leave the same state.
   */
  method FetchOrderIrrelevant(a: Store, b: Store, publicReply: Option<AllDataReply>, adminReply: Option<AdminDataReply>)
    requires a.SameState(b)
    modifies a, b
    ensures a.SameState(b)
  {
    a.FetchAllData(false, publicReply);
    a.FetchAdminData(adminReply);
    b.FetchAdminData(adminReply);
    b.FetchAllData(false, publicReply);
  }
}
