/** The restaurant editing form (src/components/admin/forms/RestaurantForm.tsx):
    the seven-day business-hours table, the accepted-payment toggle, the
    profile payload, and the submit sequence guarded by `isSubmitting`. */
module RestaurantForm {
  import opened Wrappers
  import opened Lists
  import opened Numbers

  // ---------------------------------------------------------------- hours

  /** One row of `businessHours`; `day` is `day_of_week`, 1 (Sunday) to 7. */
  datatype Hour = Hour(day: int, openTime: string, closeTime: string)

  /** A record of the fetched hours. `day` is `Number(h.day_of_week)` when
      that is an integer, `None` when it is `NaN` or fractional (such a
      record matches no row). */
  datatype FetchedHour = FetchedHour(day: Option<int>, openTime: string, closeTime: string)

  datatype HourField = OpenTime | CloseTime

  /** The table always has seven rows, for days 1 to 7 in order. */
  predicate HoursTable(hours: seq<Hour>) {
    |hours| == 7 && forall i :: 0 <= i < 7 ==> hours[i].day == i + 1
  }

  /** The table the form starts with, and resets to for a new restaurant. */
  function InitialHours(): (r: seq<Hour>)
    ensures HoursTable(r)
    ensures forall i :: 0 <= i < |r| ==> r[i].openTime == "" && r[i].closeTime == ""
    ensures SendableHours(r) == []
  {
    seq(7, i requires 0 <= i < 7 => Hour(i + 1, "", ""))
  }

  function MatchesDay(day: int): FetchedHour -> bool {
    (f: FetchedHour) => f.day == Some(day)
  }

  function MergeDay(fetched: seq<FetchedHour>): Hour -> Hour {
    (h: Hour) =>
      match Find(fetched, MatchesDay(h.day))
      case None => h
      case Some(f) => h.(openTime := f.openTime, closeTime := f.closeTime)
  }

  /** The loader's merge: each row takes its times from the first fetched
      record for its day, and stays as it was when there is none. */
  function MergeHours(prev: seq<Hour>, fetched: seq<FetchedHour>): (r: seq<Hour>)
    ensures |r| == |prev|
    ensures forall i :: 0 <= i < |r| ==> r[i].day == prev[i].day
    ensures HoursTable(prev) ==> HoursTable(r)
    ensures forall i :: 0 <= i < |r| && (forall j :: 0 <= j < |fetched| ==> fetched[j].day != Some(prev[i].day))
                        ==> r[i] == prev[i]
    ensures forall i, j :: 0 <= i < |r| && 0 <= j < |fetched| && fetched[j].day == Some(prev[i].day)
                           && (forall k :: 0 <= k < j ==> fetched[k].day != Some(prev[i].day))
                           ==> r[i] == Hour(prev[i].day, fetched[j].openTime, fetched[j].closeTime)
  {
    var r := Map(prev, MergeDay(fetched));
    forall i, j | 0 <= i < |r| && 0 <= j < |fetched| && fetched[j].day == Some(prev[i].day)
                  && (forall k :: 0 <= k < j ==> fetched[k].day != Some(prev[i].day))
      ensures r[i] == Hour(prev[i].day, fetched[j].openTime, fetched[j].closeTime)
    {
      FirstMatch(fetched, MatchesDay(prev[i].day), j);
    }
    r
  }

  /** The element `find` returns is the one at the first matching position. */
  lemma FirstMatch<T>(xs: seq<T>, p: T -> bool, j: nat)
    requires j < |xs| && p(xs[j])
    requires forall k :: 0 <= k < j ==> !p(xs[k])
    ensures Find(xs, p) == Some(xs[j])
  {
    var r := FindIndex(xs, p);
    assert r.Some?;
    assert r.value == j;
  }

  /** Merging the same response twice changes nothing more. */
  lemma MergeIdempotent(prev: seq<Hour>, fetched: seq<FetchedHour>)
    ensures MergeHours(MergeHours(prev, fetched), fetched) == MergeHours(prev, fetched)
  {
    var once := MergeHours(prev, fetched);
    var twice := MergeHours(once, fetched);
    forall i | 0 <= i < |prev| ensures twice[i] == once[i] {
      match FindIndex(fetched, MatchesDay(prev[i].day))
      case None =>
      case Some(j) =>
        assert once[i] == Hour(prev[i].day, fetched[j].openTime, fetched[j].closeTime);
        assert twice[i] == Hour(once[i].day, fetched[j].openTime, fetched[j].closeTime);
    }
  }

  /** An empty response leaves the table as it was. */
  lemma MergeNothing(prev: seq<Hour>)
    ensures MergeHours(prev, []) == prev
  {
    var r := MergeHours(prev, []);
    assert forall i :: 0 <= i < |prev| ==> r[i] == prev[i];
  }

  function HourText(h: Hour, field: HourField): string {
    match field
    case OpenTime => h.openTime
    case CloseTime => h.closeTime
  }

  function WithHourText(h: Hour, field: HourField, value: string): Hour {
    match field
    case OpenTime => h.(openTime := value)
    case CloseTime => h.(closeTime := value)
  }

  /** `handleHourChange(idx, field, value)`: only `field` of row `idx`
      changes; an index outside the table changes nothing. */
  function EditHour(hours: seq<Hour>, idx: int, field: HourField, value: string): (r: seq<Hour>)
    ensures |r| == |hours|
    ensures forall i :: 0 <= i < |r| && i != idx ==> r[i] == hours[i]
    ensures 0 <= idx < |r| ==> r[idx].day == hours[idx].day && HourText(r[idx], field) == value
    ensures 0 <= idx < |r| && field == OpenTime ==> r[idx].closeTime == hours[idx].closeTime
    ensures 0 <= idx < |r| && field == CloseTime ==> r[idx].openTime == hours[idx].openTime
    ensures HoursTable(hours) ==> HoursTable(r)
  {
    seq(|hours|, i requires 0 <= i < |hours| => if i == idx then WithHourText(hours[i], field, value) else hours[i])
  }

  /** Typing back the previous text restores the table. */
  lemma EditRestores(hours: seq<Hour>, idx: int, field: HourField, value: string)
    requires 0 <= idx < |hours|
    ensures EditHour(EditHour(hours, idx, field, value), idx, field, HourText(hours[idx], field)) == hours
  {
    var r := EditHour(EditHour(hours, idx, field, value), idx, field, HourText(hours[idx], field));
    assert r[idx] == hours[idx];
  }

  /** The row shows "Fechado" when either time is empty. */
  predicate ShowsClosed(h: Hour) {
    h.openTime == "" || h.closeTime == ""
  }

  predicate IsOpen(h: Hour) {
    h.openTime != "" && h.closeTime != ""
  }

  /** `businessHoursToSend`: the rows with both times filled in, in table
      order. */
  function SendableHours(hours: seq<Hour>): (r: seq<Hour>)
    ensures IsSubseq(r, hours)
    ensures forall h :: h in r <==> h in hours && IsOpen(h)
  {
    FilterFacts(hours, IsOpen);
    Filter(hours, IsOpen)
  }

  /** A day shown as "Fechado" is never sent. */
  lemma ClosedDayNeverSent(hours: seq<Hour>, i: int)
    requires 0 <= i < |hours| && ShowsClosed(hours[i])
    ensures hours[i] !in SendableHours(hours)
  {
  }

  /** Filling in both times of a day makes exactly that row part of what is
      sent. */
  lemma FilledDayIsSent(hours: seq<Hour>, idx: int, open: string, close: string)
    requires HoursTable(hours) && 0 <= idx < 7 && open != "" && close != ""
    ensures Hour(idx + 1, open, close) in SendableHours(EditHour(EditHour(hours, idx, OpenTime, open), idx, CloseTime, close))
  {
    var t := EditHour(EditHour(hours, idx, OpenTime, open), idx, CloseTime, close);
    assert t[idx] == Hour(idx + 1, open, close);
  }

  // ------------------------------------------------------------- payments

  /** `paymentOptions`, also the default list. */
  const AllPayments: seq<string> := ["CASH", "PIX", "CREDIT", "DEBIT"]

  function IsNot(value: string): string -> bool {
    (v: string) => v != value
  }

  /** `handlePaymentChange(value)`: a listed value is removed everywhere, an
      unlisted one is appended. */
  function TogglePayment(methods: seq<string>, value: string): (r: seq<string>)
    ensures value in r <==> value !in methods
    ensures value in methods ==> IsSubseq(r, methods)
    ensures forall v :: v != value ==> (v in r <==> v in methods)
    ensures value !in methods ==> r == methods + [value]
  {
    FilterFacts(methods, IsNot(value));
    if value in methods then Filter(methods, IsNot(value)) else methods + [value]
  }

  /** Ticking an unticked method and unticking it again restores the list. */
  lemma ToggleAbsentTwice(methods: seq<string>, value: string)
    requires value !in methods
    ensures TogglePayment(TogglePayment(methods, value), value) == methods
  {
    FilterAppend(methods, [value], IsNot(value));
    FilterKeepsAll(methods, IsNot(value));
    assert Filter([value], IsNot(value)) == [] by {
      assert Filter([value], IsNot(value)) == Filter([value][1..], IsNot(value));
    }
  }

  // -------------------------------------------------------------- profile

  /** `formData`; fee and minimum order are kept as the texts typed. */
  datatype ProfileForm = ProfileForm(
    restaurantName: string, cuisineType: string, deliveryFee: string, minimumOrder: string,
    description: string, deliveryRadius: string, pixKey: string, instagram: string,
    whatsapp: string, logoUrl: string, bannerUrl: string,
    acceptedPaymentMethods: seq<string>, onlyLinkedDelivery: bool)

  /** Every text of the form is blank. */
  predicate BlankTexts(f: ProfileForm) {
    f.restaurantName == "" && f.cuisineType == "" && f.deliveryFee == "" && f.minimumOrder == ""
    && f.description == "" && f.deliveryRadius == "" && f.pixKey == "" && f.instagram == ""
    && f.whatsapp == "" && f.logoUrl == "" && f.bannerUrl == ""
  }

  function InitialForm(): (f: ProfileForm)
    ensures f.acceptedPaymentMethods == AllPayments && !f.onlyLinkedDelivery
    ensures BlankTexts(f)
  {
    ProfileForm("", "", "", "", "", "", "", "", "", "", "", AllPayments, false)
  }

  /** The stored `accepted_payment_methods`: absent (or empty), or a JSON
      text whose parse is `parsed` (`None` when `JSON.parse` throws). */
  datatype StoredPayments = NoPayments | PaymentsText(parsed: Option<seq<string>>)

  /** The fetched profile; a missing text field is `None`, numbers arrive
      already as their `toString()` text. */
  datatype Profile = Profile(
    restaurantName: Option<string>, cuisineType: Option<string>, deliveryFee: Option<string>,
    minimumOrder: Option<string>, description: Option<string>, deliveryRadius: Option<string>,
    pixKey: Option<string>, instagram: Option<string>, whatsapp: Option<string>,
    logoUrl: Option<string>, bannerUrl: Option<string>,
    payments: StoredPayments, onlyLinked: Option<int>)

  /** Every text of the form is the profile's text, or blank when the
      profile lacks it. */
  predicate TextsFrom(f: ProfileForm, p: Profile) {
    f.restaurantName == p.restaurantName.GetOr("") && f.cuisineType == p.cuisineType.GetOr("")
    && f.deliveryFee == p.deliveryFee.GetOr("") && f.minimumOrder == p.minimumOrder.GetOr("")
    && f.description == p.description.GetOr("") && f.deliveryRadius == p.deliveryRadius.GetOr("")
    && f.pixKey == p.pixKey.GetOr("") && f.instagram == p.instagram.GetOr("")
    && f.whatsapp == p.whatsapp.GetOr("") && f.logoUrl == p.logoUrl.GetOr("")
    && f.bannerUrl == p.bannerUrl.GetOr("")
  }

  /** The form the loader builds from a profile, or `None` when parsing the
      stored payment list throws (the loader then stops). */
  function FormFromProfile(p: Profile): (r: Option<ProfileForm>)
    ensures r.None? <==> p.payments == PaymentsText(None)
    ensures r.Some? && p.payments.NoPayments? ==> r.value.acceptedPaymentMethods == AllPayments
    ensures r.Some? && p.payments.PaymentsText? ==> r.value.acceptedPaymentMethods == p.payments.parsed.value
    ensures r.Some? ==> (r.value.onlyLinkedDelivery <==> p.onlyLinked.Some? && p.onlyLinked.value != 0)
    ensures r.Some? ==> TextsFrom(r.value, p)
  {
    match p.payments
    case NoPayments => Some(FormWith(p, AllPayments))
    case PaymentsText(None) => None
    case PaymentsText(Some(methods)) => Some(FormWith(p, methods))
  }

  /** `profileData.x || ''` for every text, `!!only_linked_delivery`, and
      the given payment list. */
  function FormWith(p: Profile, methods: seq<string>): ProfileForm {
      ProfileForm(
        p.restaurantName.GetOr(""), p.cuisineType.GetOr(""), p.deliveryFee.GetOr(""),
        p.minimumOrder.GetOr(""), p.description.GetOr(""), p.deliveryRadius.GetOr(""),
        p.pixKey.GetOr(""), p.instagram.GetOr(""), p.whatsapp.GetOr(""),
        p.logoUrl.GetOr(""), p.bannerUrl.GetOr(""),
        methods, p.onlyLinked.Some? && p.onlyLinked.value != 0)
  }

  /** `parseInt(delivery_radius) || 5`: the parsed radius, or 5 when the text
      is `NaN` or 0. */
  function RadiusOrDefault(text: string): (r: int)
    ensures r != 0
    ensures (ParseInt(text).Some? && ParseInt(text).value != 0) ==> r == ParseInt(text).value
    ensures (ParseInt(text).None? || ParseInt(text) == Some(0)) ==> r == 5
  {
    match ParseInt(text)
    case Some(n) => if n != 0 then n else 5
    case None => 5
  }

  /** A typed non-zero radius is sent as typed. */
  lemma RadiusRoundTrip(n: int)
    requires n != 0
    ensures RadiusOrDefault(DecimalString(n)) == n
  {
    DecimalRoundTrip(n);
  }

  /** A blank or zero radius is sent as 5. */
  lemma RadiusDefaults()
    ensures RadiusOrDefault("") == 5
    ensures RadiusOrDefault(DecimalString(0)) == 5
  {
    DecimalRoundTrip(0);
  }

  /** The body of the profile PUT; the two money fields go through
      `parseFloat` and are not part of this model. */
  datatype ProfilePayload = ProfilePayload(
    restaurantName: string, cuisineType: string, description: string, deliveryRadius: int,
    pixKey: string, instagram: string, whatsapp: string, logoUrl: string, bannerUrl: string,
    acceptedPaymentMethods: seq<string>, onlyLinkedDelivery: int)

  /** The payload carries every text of the form but the two money fields
      and the radius unchanged. */
  predicate TextsSent(r: ProfilePayload, f: ProfileForm) {
    r.restaurantName == f.restaurantName && r.cuisineType == f.cuisineType
    && r.description == f.description && r.pixKey == f.pixKey && r.instagram == f.instagram
    && r.whatsapp == f.whatsapp && r.logoUrl == f.logoUrl && r.bannerUrl == f.bannerUrl
  }

  function PayloadOf(f: ProfileForm): (r: ProfilePayload)
    ensures r.deliveryRadius == RadiusOrDefault(f.deliveryRadius) && r.deliveryRadius != 0
    ensures r.onlyLinkedDelivery == 0 || r.onlyLinkedDelivery == 1
    ensures r.onlyLinkedDelivery == 1 <==> f.onlyLinkedDelivery
    ensures r.acceptedPaymentMethods == f.acceptedPaymentMethods
    ensures TextsSent(r, f)
  {
    ProfilePayload(f.restaurantName, f.cuisineType, f.description, RadiusOrDefault(f.deliveryRadius),
                   f.pixKey, f.instagram, f.whatsapp, f.logoUrl, f.bannerUrl,
                   f.acceptedPaymentMethods, if f.onlyLinkedDelivery then 1 else 0)
  }

  /** A profile without a stored payment list is saved back with all four
      methods accepted. */
  lemma MissingPaymentsSaveAll(p: Profile)
    requires p.payments.NoPayments?
    ensures FormFromProfile(p).Some?
    ensures PayloadOf(FormFromProfile(p).value).acceptedPaymentMethods == AllPayments
  {
  }

  /** Loading a profile and saving it unedited sends back its texts (blank
      where it had none), its radius or 5, its payment list and its flag. */
  lemma ProfileSavedBack(p: Profile)
    requires FormFromProfile(p).Some?
    ensures var r := PayloadOf(FormFromProfile(p).value);
      && r.restaurantName == p.restaurantName.GetOr("") && r.cuisineType == p.cuisineType.GetOr("")
      && r.description == p.description.GetOr("") && r.pixKey == p.pixKey.GetOr("")
      && r.instagram == p.instagram.GetOr("") && r.whatsapp == p.whatsapp.GetOr("")
      && r.logoUrl == p.logoUrl.GetOr("") && r.bannerUrl == p.bannerUrl.GetOr("")
      && r.deliveryRadius == RadiusOrDefault(p.deliveryRadius.GetOr(""))
      && (r.onlyLinkedDelivery == 1 <==> p.onlyLinked.Some? && p.onlyLinked.value != 0)
  {
  }

  // --------------------------------------------------------------- screen

  /** Where `handleSubmit` is suspended: before the profile PUT answers,
      before the hours PUT answers, or in the 1500 ms before closing. */
  datatype SubmitStep = Idle | AwaitingProfile | AwaitingHours | AwaitingTimer

  /** Whether the loader stops before the hours: parsing the payment list
      threw. */
  predicate LoadAborts(profile: Option<Profile>) {
    profile.Some? && FormFromProfile(profile.value).None?
  }

  class RestaurantEditor {
    var loading: bool
    var isSubmitting: bool
    var formData: ProfileForm
    var businessHours: seq<Hour>
    /** The hours as they were when submit was pressed (the handler's
        closure). */
    var snapshot: seq<Hour>
    var step: SubmitStep
    /** Still shown: `onClose` has not been called. */
    var open: bool
    /** `onSave` has been called. */
    var saved: bool

    predicate Valid()
      reads this
    {
      loading == isSubmitting && (isSubmitting <==> step != Idle) && HoursTable(businessHours)
    }

    constructor ()
      ensures Valid() && open && !saved && step == Idle
      ensures formData == InitialForm() && businessHours == InitialHours()
    {
      loading := false;
      isSubmitting := false;
      formData := InitialForm();
      businessHours := InitialHours();
      snapshot := [];
      step := Idle;
      open := true;
      saved := false;
    }

    /** The loader after both responses arrived; `None` is a response that
        was not ok. A profile whose payment list cannot be parsed stops it
        before the hours. */
    method Loaded(profile: Option<Profile>, hours: Option<seq<FetchedHour>>)
      requires Valid()
      modifies this
      ensures Valid()
      ensures profile.Some? && !LoadAborts(profile) ==> formData == FormFromProfile(profile.value).value
      ensures (profile.None? || LoadAborts(profile)) ==> formData == old(formData)
      ensures hours.Some? && !LoadAborts(profile) ==> businessHours == MergeHours(old(businessHours), hours.value)
      ensures (hours.None? || LoadAborts(profile)) ==> businessHours == old(businessHours)
      ensures loading == old(loading) && isSubmitting == old(isSubmitting) && step == old(step)
      ensures snapshot == old(snapshot) && open == old(open) && saved == old(saved)
    {
      if profile.Some? {
        var form := FormFromProfile(profile.value);
        if form.None? {
          return;
        }
        formData := form.value;
      }
      if hours.Some? {
        businessHours := MergeHours(businessHours, hours.value);
      }
    }

    /** Typing into an hour input; the inputs are disabled while submitting. */
    method HourChange(idx: int, field: HourField, value: string)
      requires Valid() && !isSubmitting
      modifies this
      ensures Valid()
      ensures businessHours == EditHour(old(businessHours), idx, field, value)
      ensures formData == old(formData) && step == old(step) && isSubmitting == old(isSubmitting)
      ensures loading == old(loading) && snapshot == old(snapshot) && open == old(open) && saved == old(saved)
    {
      businessHours := EditHour(businessHours, idx, field, value);
    }

    /** Ticking a payment checkbox; the boxes are disabled while submitting. */
    method PaymentChange(value: string)
      requires !isSubmitting
      modifies this
      ensures formData == old(formData).(acceptedPaymentMethods := TogglePayment(old(formData).acceptedPaymentMethods, value))
      ensures businessHours == old(businessHours) && step == old(step) && isSubmitting == old(isSubmitting)
      ensures loading == old(loading) && snapshot == old(snapshot) && open == old(open) && saved == old(saved)
    {
      formData := formData.(acceptedPaymentMethods := TogglePayment(formData.acceptedPaymentMethods, value));
    }

    /** `handleClose`: closes unless a submit is in flight. */
    method Close()
      modifies this
      ensures open == (old(open) && isSubmitting)
      ensures formData == old(formData) && businessHours == old(businessHours) && step == old(step)
      ensures isSubmitting == old(isSubmitting) && loading == old(loading)
      ensures snapshot == old(snapshot) && saved == old(saved)
    {
      if !isSubmitting {
        open := false;
      }
    }

    /** `handleSubmit` up to the profile PUT: nothing happens while a submit
        is in flight; otherwise both flags go up and the profile PUT goes out
        with body `PayloadOf(sent.value)`. */
    method Submit() returns (sent: Option<ProfileForm>)
      requires Valid()
      modifies this
      ensures Valid()
      ensures old(isSubmitting) ==> sent.None? && step == old(step) && snapshot == old(snapshot)
      ensures !old(isSubmitting) ==> sent == Some(formData) && isSubmitting
                                      && step == AwaitingProfile && snapshot == businessHours
      ensures formData == old(formData) && businessHours == old(businessHours)
      ensures open == old(open) && saved == old(saved)
    {
      if isSubmitting {
        return None;
      }
      isSubmitting, loading, step, snapshot := true, true, AwaitingProfile, businessHours;
      sent := Some(formData);
    }

    /** The profile PUT answered (`ok` false also stands for a network
        error): the hours PUT goes out only after an ok answer; otherwise
        both flags drop and the form is left as it was. */
    method ProfileAnswered(ok: bool) returns (hoursRequest: Option<seq<Hour>>)
      requires Valid() && step == AwaitingProfile
      modifies this
      ensures Valid()
      ensures ok ==> hoursRequest == Some(SendableHours(snapshot)) && step == AwaitingHours && loading
      ensures !ok ==> hoursRequest.None? && step == Idle && !loading && !isSubmitting
      ensures formData == old(formData) && businessHours == old(businessHours) && snapshot == old(snapshot)
      ensures open == old(open) && saved == old(saved)
    {
      if !ok {
        loading := false;
        isSubmitting := false;
        step := Idle;
        return None;
      }
      step := AwaitingHours;
      hoursRequest := Some(SendableHours(snapshot));
    }

    /** The hours PUT answered: on success the form waits for the timer,
        still submitting; on failure both flags drop. */
    method HoursAnswered(ok: bool)
      requires Valid() && step == AwaitingHours
      modifies this
      ensures Valid()
      ensures ok ==> step == AwaitingTimer && loading && isSubmitting
      ensures !ok ==> step == Idle && !loading && !isSubmitting
      ensures formData == old(formData) && businessHours == old(businessHours) && snapshot == old(snapshot)
      ensures open == old(open) && saved == old(saved)
    {
      if ok {
        step := AwaitingTimer;
      } else {
        loading := false;
        isSubmitting := false;
        step := Idle;
      }
    }

    /** The 1500 ms timer: both flags drop, `onSave` and `onClose` run. */
    method TimerFired()
      requires Valid() && step == AwaitingTimer
      modifies this
      ensures Valid() && step == Idle && !loading && !isSubmitting
      ensures saved && !open
      ensures formData == old(formData) && businessHours == old(businessHours) && snapshot == old(snapshot)
    {
      loading := false;
      isSubmitting := false;
      step := Idle;
      saved := true;
      open := false;
    }
  }
}
