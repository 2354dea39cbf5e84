/**
 * The views of meetings/views.py: the official list's query set, the
 * multiple-forms machinery, and the "call a US representative" workflow,
 * which draws an eligible representative and, on submission, saves a contact
 * attempt, up to two meetings and the representative's meeting-info text.
 *
 * The database is a `Store` object holding the officials, each with its
 * meetings and contact attempts; forms are represented by the data posted for
 * them, their validity by an abstract `clean` flag plus the foreign-key and
 * choice checks the model forms perform.
 */
module Views {
  import opened Wrappers
  import opened Seqs
  import opened Models
  import opened Query
  import opened Http

  // ---------------------------------------------------------------------------
  // The store of officials

  ghost predicate DistinctIds(s: seq<Official>)
  {
    forall i, j :: 0 <= i < j < |s| ==> s[i].id != s[j].id
  }

  /** An official row with primary key `id` exists. */
  predicate HasOfficial(s: seq<Official>, id: OfficialId)
  {
    exists i :: 0 <= i < |s| && s[i].id == id
  }

  /** Every stored meeting's key is below `next`, so `next` and the keys after it are unused. */
  ghost predicate MeetingKeysBelow(s: seq<Official>, next: nat)
  {
    forall o, m :: o in s && m in o.meetings ==> m.id < next
  }

  /** A write that touches one official: a new related row, or a new meeting-info text. */
  datatype Edit =
    | AppendAttempt(attempt: ContactAttempt)
    | AppendMeeting(meeting: Meeting)
    | SetInfoSource(text: string)

  function ApplyEdit(o: Official, e: Edit): (r: Official)
    ensures r.id == o.id
  {
    match e
    case AppendAttempt(a) => o.(contactAttempts := o.contactAttempts + [a])
    case AppendMeeting(m) => o.(meetings := o.meetings + [m])
    case SetInfoSource(t) => o.(meetingInfoSource := t)
  }

  /** Applies `e` to the official with primary key `id`; every other official is left as it is. */
  function UpdateOfficial(s: seq<Official>, id: OfficialId, e: Edit): (r: seq<Official>)
    ensures |r| == |s|
    ensures forall i :: 0 <= i < |s| ==> r[i] == if s[i].id == id then ApplyEdit(s[i], e) else s[i]
    ensures forall i :: 0 <= i < |s| ==> r[i].id == s[i].id
  {
    if s == [] then []
    else [if s[0].id == id then ApplyEdit(s[0], e) else s[0]] + UpdateOfficial(s[1..], id, e)
  }

  function SumBy(s: seq<Official>, g: Official -> nat): nat
  {
    if s == [] then 0 else g(s[0]) + SumBy(s[1..], g)
  }

  function MeetingCount(o: Official): nat { |o.meetings| }

  /** Number of ContactAttempt rows. */
  function TotalContactAttempts(s: seq<Official>): nat { SumBy(s, AttemptCount) }

  /** Number of Meeting rows. */
  function TotalMeetings(s: seq<Official>): nat { SumBy(s, MeetingCount) }

  /** An update leaves every row count alone except through the one official it edits. */
  lemma {:induction false} SumAfterUpdate(s: seq<Official>, id: OfficialId, e: Edit, g: Official -> nat, k: nat)
    requires DistinctIds(s) && k < |s| && s[k].id == id
    ensures SumBy(UpdateOfficial(s, id, e), g) == SumBy(s, g) - g(s[k]) + g(ApplyEdit(s[k], e))
  {
    var r := UpdateOfficial(s, id, e);
    assert r[1..] == UpdateOfficial(s[1..], id, e);
    if k == 0 {
      assert forall i :: 0 <= i < |s[1..]| ==> s[1..][i].id != id by {
        forall i | 0 <= i < |s[1..]| ensures s[1..][i].id != id {
          assert s[1..][i] == s[i + 1];
        }
      }
      assert UpdateOfficial(s[1..], id, e) == s[1..];
    } else {
      SumAfterUpdate(s[1..], id, e, g, k - 1);
    }
  }

  /** An edit keeps every meeting key below `next` when the meeting it adds, if any, has a key below `next`. */
  lemma UpdateKeepsKeysBelow(s: seq<Official>, id: OfficialId, e: Edit, next: nat)
    requires MeetingKeysBelow(s, next)
    requires e.AppendMeeting? ==> e.meeting.id < next
    ensures MeetingKeysBelow(UpdateOfficial(s, id, e), next)
  {
    var r := UpdateOfficial(s, id, e);
    forall o, m | o in r && m in o.meetings ensures m.id < next {
      var i :| 0 <= i < |r| && r[i] == o;
      assert s[i] in s;
      if m !in s[i].meetings {
        assert e.AppendMeeting? && m == e.meeting;
      }
    }
  }

  lemma UpdateKeepsOfficials(s: seq<Official>, id: OfficialId, e: Edit, other: OfficialId)
    ensures DistinctIds(s) ==> DistinctIds(UpdateOfficial(s, id, e))
    ensures HasOfficial(UpdateOfficial(s, id, e), other) <==> HasOfficial(s, other)
  {
    var r := UpdateOfficial(s, id, e);
    if HasOfficial(s, other) {
      var i :| 0 <= i < |s| && s[i].id == other;
      assert r[i].id == other;
    }
    if HasOfficial(r, other) {
      var i :| 0 <= i < |r| && r[i].id == other;
      assert s[i].id == other;
    }
  }

  /** The position of an existing official. */
  lemma IndexOf(s: seq<Official>, id: OfficialId) returns (k: nat)
    requires HasOfficial(s, id)
    ensures k < |s| && s[k].id == id
  {
    var i :| 0 <= i < |s| && s[i].id == id;
    k := i;
  }
  /** The database contents a POST can change: the officials with their related rows, and the next Meeting key. */
  datatype StoreState = StoreState(officials: seq<Official>, nextMeetingId: nat)

  /** `ContactAttemptForm.save()`: one new ContactAttempt row for the posted official. */
  function SaveAttempt(st: StoreState, f: ContactAttemptFormData, now: DateTime): StoreState
  {
    st.(officials := UpdateOfficial(st.officials, f.official, AppendAttempt(NewContactAttempt(f, now))))
  }

  /** A MeetingForm is saved only when its date was filled in; the new Meeting takes the next key. */
  function SaveIfDated(st: StoreState, f: MeetingFormData): StoreState
  {
    if f.date.Some? then
      StoreState(UpdateOfficial(st.officials, f.official, AppendMeeting(NewMeeting(f, st.nextMeetingId))), st.nextMeetingId + 1)
    else st
  }

  /** `OfficialMeetingInfoForm.save()` on the bound instance: rewrites that official's meeting-info text. */
  function SaveInfo(st: StoreState, instance: OfficialId, f: MeetingInfoFormData): StoreState
  {
    st.(officials := UpdateOfficial(st.officials, instance, SetInfoSource(f.meetingInfoSource)))
  }

  /**
   * The database: officials by primary key, each with its related rows, and
   * the primary key the next saved Meeting receives.
   */
  class Store {
    var officials: seq<Official>
    var nextMeetingId: nat

    ghost predicate Valid()
      reads this
    {
      DistinctIds(officials) && MeetingKeysBelow(officials, nextMeetingId)
    }

    function State(): StoreState
      reads this
    {
      StoreState(officials, nextMeetingId)
    }

    constructor (officials: seq<Official>, nextMeetingId: nat)
      requires DistinctIds(officials) && MeetingKeysBelow(officials, nextMeetingId)
      ensures Valid()
      ensures this.officials == officials && this.nextMeetingId == nextMeetingId
    {
      this.officials := officials;
      this.nextMeetingId := nextMeetingId;
    }

    method SaveContactAttempt(f: ContactAttemptFormData, now: DateTime)
      requires Valid()
      modifies this
      ensures Valid()
      ensures State() == SaveAttempt(old(State()), f, now)
    {
      UpdateKeepsOfficials(officials, f.official, AppendAttempt(NewContactAttempt(f, now)), f.official);
      UpdateKeepsKeysBelow(officials, f.official, AppendAttempt(NewContactAttempt(f, now)), nextMeetingId);
      officials := UpdateOfficial(officials, f.official, AppendAttempt(NewContactAttempt(f, now)));
    }

    method SaveMeeting(f: MeetingFormData)
      requires Valid() && f.date.Some?
      modifies this
      ensures Valid()
      ensures State() == SaveIfDated(old(State()), f)
    {
      var m := NewMeeting(f, nextMeetingId);
      UpdateKeepsOfficials(officials, f.official, AppendMeeting(m), f.official);
      UpdateKeepsKeysBelow(officials, f.official, AppendMeeting(m), nextMeetingId + 1);
      officials := UpdateOfficial(officials, f.official, AppendMeeting(m));
      nextMeetingId := nextMeetingId + 1;
    }

    method SaveMeetingInfo(instance: OfficialId, f: MeetingInfoFormData)
      requires Valid()
      modifies this
      ensures Valid()
      ensures State() == SaveInfo(old(State()), instance, f)
    {
      UpdateKeepsOfficials(officials, instance, SetInfoSource(f.meetingInfoSource), instance);
      UpdateKeepsKeysBelow(officials, instance, SetInfoSource(f.meetingInfoSource), nextMeetingId);
      officials := UpdateOfficial(officials, instance, SetInfoSource(f.meetingInfoSource));
    }
  }

  // ---------------------------------------------------------------------------
  // OfficialListView

  /** A query parameter that the date parser rejected (`strptime` raises ValueError). */
  datatype RequestError = InvalidDate(parameter: string, value: string)

  /**
   * `OfficialListView.get_queryset`: all officials, filtered by
   * `without_meetings_since` when that parameter is given (parsed by
   * `parseDate`, the `%Y-%m-%d` parser), ordered by division name.
   */
  function ListViewQuery(params: QueryDict, parseDate: string -> Option<Date>): (r: Result<seq<Step>, RequestError>)
    ensures r.Failure? <==> QueryGet(params, "without_meetings_since").Some? && parseDate(QueryGet(params, "without_meetings_since").value).None?
    ensures r.Success? ==> r.value != [] && r.value[|r.value| - 1] == OrderByDivisionName
    ensures r.Success? ==> (|r.value| == 2 <==> QueryGet(params, "without_meetings_since").Some?)
    ensures r.Success? && |r.value| == 2 ==> r.value[0] == WithoutMeetingsSince(parseDate(QueryGet(params, "without_meetings_since").value).value)
  {
    match QueryGet(params, "without_meetings_since")
    case None => Success([OrderByDivisionName])
    case Some(text) =>
      match parseDate(text)
      case None => Failure(InvalidDate("without_meetings_since", text))
      case Some(since) => Success([WithoutMeetingsSince(since), OrderByDivisionName])
  }

  /** Whatever the filter does, the list page shows the filtered officials, by division name. */
  lemma ListViewOrdered(
    params: QueryDict,
    parseDate: string -> Option<Date>,
    officials: seq<Official>,
    sinceFilter: (seq<Official>, Date) -> seq<Official>,
    twitterFilter: seq<Official> -> seq<Official>)
    requires ListViewQuery(params, parseDate).Success?
    ensures var r := Evaluate(officials, ListViewQuery(params, parseDate).value, sinceFilter, twitterFilter);
      forall i, j :: 0 <= i < j < |r| ==> StrLe(DivisionName(r[i]), DivisionName(r[j]))
    ensures var steps := ListViewQuery(params, parseDate).value;
      multiset(Evaluate(officials, steps, sinceFilter, twitterFilter))
      == multiset(Evaluate(officials, steps[..|steps| - 1], sinceFilter, twitterFilter))
  {
    EvaluateOrdered(officials, ListViewQuery(params, parseDate).value, sinceFilter, twitterFilter);
  }

  // ---------------------------------------------------------------------------
  // Multiple forms

  /** The form prefixes of CallUsRepView. */
  datatype Prefix = NextMeetingForm | LastMeetingForm | ContactAttemptForm | MeetingInfoSourceForm

  /** Data posted for a MeetingForm; the `date` field is optional. */
  datatype MeetingFormData = MeetingFormData(
    clean: bool,
    official: OfficialId,
    date: Option<Date>,
    time: Option<int>,
    location: string,
    eventWebsite: string,
    notes: string)

  datatype ContactAttemptFormData = ContactAttemptFormData(
    clean: bool,
    user: UserId,
    official: OfficialId,
    contacted: bool,
    notes: string,
    contactMethod: string)

  datatype MeetingInfoFormData = MeetingInfoFormData(clean: bool, meetingInfoSource: string)

  /** The body of a POST to the call view: one part per form prefix. */
  datatype PostData = PostData(
    nextMeeting: MeetingFormData,
    lastMeeting: MeetingFormData,
    contactAttempt: ContactAttemptFormData,
    meetingInfo: MeetingInfoFormData)

  datatype Request = Request(httpMethod: string, user: UserId, post: PostData)

  /** The initial data a form is built with. */
  datatype Initial =
    | ContactAttemptInitial(official: Option<Official>, user: UserId, contactMethod: string)
    | MeetingInitial(official: Option<Official>)

  /** A keyword argument a form is constructed with. */
  datatype KwValue =
    | InitialArg(initial: Option<Initial>)
    | DataArg(data: PostData)
    | FilesArg
    | InstanceArg(instance: Option<Official>)

  /**
   * `MultipleFormsMixin.get_form_kwargs`: the initial data, and the request's
   * data and files only when the request is a POST or a PUT.
   */
  method MixinFormKwargs(initial: Option<Initial>, request: Request) returns (kwargs: map<string, KwValue>)
    ensures kwargs.Keys == {"initial"} + (if request.httpMethod in {"POST", "PUT"} then {"data", "files"} else {})
    ensures kwargs["initial"] == InitialArg(initial)
    ensures "data" in kwargs ==> kwargs["data"] == DataArg(request.post) && kwargs["files"] == FilesArg
  {
    kwargs := map["initial" := InitialArg(initial)];
    if request.httpMethod in {"POST", "PUT"} {
      kwargs := kwargs["data" := DataArg(request.post)]["files" := FilesArg];
    }
  }

  datatype ViewError = ImproperlyConfigured(message: string)

  /** `MultipleFormsMixin.get_success_url`: the configured URL, or ImproperlyConfigured when it is unset or empty. */
  function MixinSuccessUrl(successUrl: Option<string>): (r: Result<string, ViewError>)
    ensures r.Success? <==> successUrl.Some? && successUrl.value != ""
    ensures r.Success? ==> r.value == successUrl.value
    ensures r.Failure? ==> r.error == ImproperlyConfigured("No URL to redirect to. Provide a success_url.")
  {
    if successUrl.Some? && successUrl.value != "" then Success(successUrl.value)
    else Failure(ImproperlyConfigured("No URL to redirect to. Provide a success_url."))
  }

  datatype FormsResponse = RedirectTo(url: string) | RenderForms

  /**
   * `ProcessMultipleFormsView.post`: every form is validated; when all are
   * valid the response redirects to the success URL (whose lookup may fail),
   * otherwise the forms are shown again. This view writes nothing.
   */
  function ProcessPost(valid: seq<bool>, successUrl: Result<string, ViewError>): (r: Result<FormsResponse, ViewError>)
    ensures (exists i :: 0 <= i < |valid| && !valid[i]) ==> r == Success(RenderForms)
    ensures (forall i :: 0 <= i < |valid| ==> valid[i]) ==>
      (r.Success? <==> successUrl.Success?) && (r.Success? ==> r.value == RedirectTo(successUrl.value))
  {
    if forall i :: 0 <= i < |valid| ==> valid[i] then
      match successUrl
      case Success(url) => Success(RedirectTo(url))
      case Failure(e) => Failure(e)
    else Success(RenderForms)
  }

  // ---------------------------------------------------------------------------
  // CallUsRepView

  /** An official CallUsRepView may hand out: a House member with no meeting and no contact attempt. */
  predicate IsEligible(o: Official)
  {
    IsUsRep(o) && o.meetings == [] && o.contactAttempts == []
  }

  /** `us_reps().without_meetings().without_contact_attempts()`. */
  function EligibleOfficials(officials: seq<Official>): (r: seq<Official>)
    ensures forall o :: o in r <==> o in officials && IsEligible(o)
  {
    WithoutContactAttempts(WithoutMeetings(UsReps(officials)))
  }

  /**
   * `get_representative`: `order_by('?').first()` over the eligible officials.
   * The random order is the parameter `draw`: any eligible official can be
   * drawn (EveryEligibleCanBeDrawn), and None comes back only when no one is eligible.
   */
  function GetRepresentative(officials: seq<Official>, draw: nat): (r: Option<Official>)
    ensures r.None? <==> forall o :: o in officials ==> !IsEligible(o)
    ensures r.Some? ==> r.value in officials && IsEligible(r.value)
    ensures r.Some? ==> IsUsRepDivision(r.value.office.division.ocdId) && r.value.meetings == [] && r.value.contactAttempts == []
  {
    Pick(EligibleOfficials(officials), draw)
  }

  /** `order_by('?').first()`: the entry the random order puts first, None for an empty query set. */
  function Pick<T>(candidates: seq<T>, draw: nat): (r: Option<T>)
    ensures r.None? <==> candidates == []
    ensures r.Some? ==> r.value in candidates
  {
    if candidates == [] then None else Some(candidates[draw % |candidates|])
  }

  lemma EligibleIsListed(officials: seq<Official>, o: Official)
    requires o in officials && IsEligible(o)
    ensures o in EligibleOfficials(officials)
  {
  }

  lemma EveryEligibleCanBeDrawn(officials: seq<Official>, o: Official)
    requires o in officials && IsEligible(o)
    ensures exists draw: nat :: GetRepresentative(officials, draw) == Some(o)
  {
    EligibleIsListed(officials, o);
    var eligible := EligibleOfficials(officials);
    var i :| 0 <= i < |eligible| && eligible[i] == o;
    PickAt(eligible, i);
    assert GetRepresentative(officials, i) == Some(o);
  }

  lemma PickAt<T>(candidates: seq<T>, i: nat)
    requires i < |candidates|
    ensures Pick(candidates, i) == Some(candidates[i])
  {
    assert i % |candidates| == i;
  }

  /** The representative a POST draws is a stored official, as PostCounts asks of it. */
  lemma DrawnRepresentativeIsStored(officials: seq<Official>, draw: nat)
    ensures GetRepresentative(officials, draw).Some? ==> HasOfficial(officials, GetRepresentative(officials, draw).value.id)
  {
    var rep := GetRepresentative(officials, draw);
    if rep.Some? {
      var i :| 0 <= i < |officials| && officials[i] == rep.value;
    }
  }

  /** The page context besides the forms: the representative and its earlier contact attempts. */
  datatype Context = Context(representative: Option<Official>, contactAttempts: seq<ContactAttempt>)

  function DateTimeDescending(): (le: (ContactAttempt, ContactAttempt) -> bool)
    ensures TotalPreorder(le)
  {
    (a: ContactAttempt, b: ContactAttempt) => a.datetime >= b.datetime
  }

  /**
   * `CallUsRepView.get_context_data`: no contact attempts without a
   * representative; otherwise its attempts, newest first.
   */
  function ContextFor(representative: Option<Official>): (c: Context)
    ensures c.representative == representative
    ensures representative.None? ==> c.contactAttempts == []
    ensures representative.Some? ==> multiset(c.contactAttempts) == multiset(representative.value.contactAttempts)
    ensures forall i, j :: 0 <= i < j < |c.contactAttempts| ==> c.contactAttempts[i].datetime >= c.contactAttempts[j].datetime
  {
    match representative
    case None => Context(None, [])
    case Some(o) => Context(representative, SortBy(o.contactAttempts, DateTimeDescending()))
  }

  /** A freshly drawn representative has no contact attempts, so the page lists none. */
  lemma DrawnRepresentativeHasNoAttemptsListed(officials: seq<Official>, draw: nat)
    ensures ContextFor(GetRepresentative(officials, draw)).contactAttempts == []
  {
    var c := ContextFor(GetRepresentative(officials, draw));
    assert |c.contactAttempts| == |multiset(c.contactAttempts)|;
  }

  function NewContactAttempt(f: ContactAttemptFormData, now: DateTime): ContactAttempt
  {
    ContactAttempt(now, f.contactMethod, f.contacted, f.notes, f.user)
  }

  /** The Meeting a dated MeetingForm saves; the form has no meeting-type field, and no sources are attached. */
  function NewMeeting(f: MeetingFormData, id: nat): Meeting
    requires f.date.Some?
  {
    Meeting(id, f.date.value, f.time, f.location, None, f.eventWebsite, f.notes, [])
  }

  /** A MeetingForm validates when its fields do and its hidden `official` names an existing official. */
  predicate MeetingFormValid(s: seq<Official>, f: MeetingFormData)
  {
    f.clean && HasOfficial(s, f.official)
  }

  /** A ContactAttemptForm validates when its fields do, its official exists and its method is a declared choice. */
  predicate ContactAttemptFormValid(s: seq<Official>, f: ContactAttemptFormData)
  {
    f.clean && HasOfficial(s, f.official) && f.contactMethod in MethodChoices
  }

  predicate AllFormsValid(s: seq<Official>, d: PostData)
  {
    && MeetingFormValid(s, d.nextMeeting)
    && MeetingFormValid(s, d.lastMeeting)
    && ContactAttemptFormValid(s, d.contactAttempt)
    && d.meetingInfo.clean
  }

  function DatedCount(f: MeetingFormData): nat { if f.date.Some? then 1 else 0 }

  /** The writes made once a representative was drawn: the dated meetings, then its meeting-info text. */
  function SaveRepresentativeForms(st: StoreState, d: PostData, rep: OfficialId): StoreState
  {
    SaveInfo(SaveIfDated(SaveIfDated(st, d.nextMeeting), d.lastMeeting), rep, d.meetingInfo)
  }

  /**
   * The store after `CallUsRepView.post`: nothing unless every form is valid;
   * then the contact attempt; then, when a representative was drawn, the
   * dated meetings and the meeting-info text of that representative. Without
   * one, the view fails right after saving the contact attempt.
   */
  function PostEffect(st: StoreState, d: PostData, rep: Option<Official>, now: DateTime): StoreState
  {
    if !AllFormsValid(st.officials, d) then st
    else if rep.None? then SaveAttempt(st, d.contactAttempt, now)
    else SaveRepresentativeForms(SaveAttempt(st, d.contactAttempt, now), d, rep.value.id)
  }


  /** What the browser gets back from `CallUsRepView.post`. */
  datatype PostOutcome =
    | Redirected(urlName: string, thanked: string)
    | Rerendered(context: Context)
    | AttributeError

  /** The URL name `get_success_url` reverses. */
  const CallUsRepUrlName := "call-us-rep"

  /**
   * The response: the forms again when one is invalid; a redirect thanking the
   * representative drawn in this request when all are valid; AttributeError
   * when none was drawn (the success message reads its name).
   */
  function PostResult(s: seq<Official>, d: PostData, rep: Option<Official>): (r: PostOutcome)
    ensures r.Rerendered? <==> !AllFormsValid(s, d)
    ensures r.Rerendered? ==> r.context == ContextFor(rep)
    ensures r.AttributeError? <==> AllFormsValid(s, d) && rep.None?
    ensures r.Redirected? ==> r.urlName == CallUsRepUrlName && rep.Some? && r.thanked == rep.value.name
  {
    if !AllFormsValid(s, d) then Rerendered(ContextFor(rep))
    else if rep.None? then AttributeError
    else Redirected(CallUsRepUrlName, rep.value.name)
  }

  /** How many rows of each kind an edit adds. */
  function AttemptsAdded(e: Edit): nat { if e.AppendAttempt? then 1 else 0 }

  function MeetingsAdded(e: Edit): nat { if e.AppendMeeting? then 1 else 0 }

  /** Editing an existing official adds exactly the rows the edit names and keeps the keys distinct. */
  lemma UpdateCounts(s: seq<Official>, id: OfficialId, e: Edit)
    requires DistinctIds(s) && HasOfficial(s, id)
    ensures var r := UpdateOfficial(s, id, e);
      && DistinctIds(r)
      && (forall other :: HasOfficial(r, other) <==> HasOfficial(s, other))
      && TotalContactAttempts(r) == TotalContactAttempts(s) + AttemptsAdded(e)
      && TotalMeetings(r) == TotalMeetings(s) + MeetingsAdded(e)
  {
    var k := IndexOf(s, id);
    SumAfterUpdate(s, id, e, AttemptCount, k);
    SumAfterUpdate(s, id, e, MeetingCount, k);
    forall other ensures HasOfficial(UpdateOfficial(s, id, e), other) <==> HasOfficial(s, other) {
      UpdateKeepsOfficials(s, id, e, other);
    }
  }

  /** The invariant of the store across the writes of one POST, with the rows added so far. */
  ghost predicate Grown(before: StoreState, after: StoreState, attempts: nat, meetings: nat)
  {
    && DistinctIds(after.officials)
    && (forall other :: HasOfficial(after.officials, other) <==> HasOfficial(before.officials, other))
    && TotalContactAttempts(after.officials) == TotalContactAttempts(before.officials) + attempts
    && TotalMeetings(after.officials) == TotalMeetings(before.officials) + meetings
    && after.nextMeetingId == before.nextMeetingId + meetings
    && MeetingKeysBelow(after.officials, after.nextMeetingId)
  }

  /**
   * A meeting form adds one meeting exactly when its date is filled in, and
   * that meeting's key is used by no meeting stored before.
   */
  lemma SaveIfDatedGrows(st0: StoreState, st: StoreState, f: MeetingFormData, attempts: nat, meetings: nat)
    requires Grown(st0, st, attempts, meetings) && HasOfficial(st0.officials, f.official)
    ensures Grown(st0, SaveIfDated(st, f), attempts, meetings + DatedCount(f))
    ensures f.date.Some? ==> forall o, m :: o in st.officials && m in o.meetings ==> m.id != st.nextMeetingId
  {
    if f.date.Some? {
      var e := AppendMeeting(NewMeeting(f, st.nextMeetingId));
      UpdateCounts(st.officials, f.official, e);
      UpdateKeepsKeysBelow(st.officials, f.official, e, st.nextMeetingId + 1);
    }
  }

  lemma RepresentativeFormsGrow(st0: StoreState, st1: StoreState, d: PostData, rep: OfficialId)
    requires Grown(st0, st1, 1, 0)
    requires HasOfficial(st0.officials, d.nextMeeting.official) && HasOfficial(st0.officials, d.lastMeeting.official)
    requires HasOfficial(st0.officials, rep)
    ensures Grown(st0, SaveRepresentativeForms(st1, d, rep), 1, DatedCount(d.nextMeeting) + DatedCount(d.lastMeeting))
  {
    SaveIfDatedGrows(st0, st1, d.nextMeeting, 1, 0);
    var st2 := SaveIfDated(st1, d.nextMeeting);
    SaveIfDatedGrows(st0, st2, d.lastMeeting, 1, DatedCount(d.nextMeeting));
    var st3 := SaveIfDated(st2, d.lastMeeting);
    assert HasOfficial(st3.officials, rep);
    UpdateCounts(st3.officials, rep, SetInfoSource(d.meetingInfo.meetingInfoSource));
    UpdateKeepsKeysBelow(st3.officials, rep, SetInfoSource(d.meetingInfo.meetingInfoSource), st3.nextMeetingId);
  }

  /**
   * The rows one POST adds: a single ContactAttempt when every form is valid,
   * and, when a representative was drawn as well, one Meeting per meeting form
   * whose date was filled in, each with a key no stored meeting has (every
   * key stays below the next one); nothing otherwise.
   */
  lemma {:induction false} PostCounts(st: StoreState, d: PostData, rep: Option<Official>, now: DateTime)
    requires DistinctIds(st.officials) && MeetingKeysBelow(st.officials, st.nextMeetingId)
    requires rep.Some? ==> HasOfficial(st.officials, rep.value.id)
    ensures var valid := AllFormsValid(st.officials, d);
      var meetings := if valid && rep.Some? then DatedCount(d.nextMeeting) + DatedCount(d.lastMeeting) else 0;
      && Grown(st, PostEffect(st, d, rep, now), if valid then 1 else 0, meetings)
      && meetings <= 2
      && (!valid ==> PostEffect(st, d, rep, now) == st)
  {
    if AllFormsValid(st.officials, d) {
      var st1 := SaveAttempt(st, d.contactAttempt, now);
      UpdateCounts(st.officials, d.contactAttempt.official, AppendAttempt(NewContactAttempt(d.contactAttempt, now)));
      UpdateKeepsKeysBelow(st.officials, d.contactAttempt.official, AppendAttempt(NewContactAttempt(d.contactAttempt, now)), st.nextMeetingId);
      assert Grown(st, st1, 1, 0);
      if rep.Some? {
        RepresentativeFormsGrow(st, st1, d, rep.value.id);
      }
    }
  }

  /** Two officials agree on everything except their related meetings, contact attempts and meeting-info text. */
  predicate SameExceptWrites(a: Official, b: Official)
  {
    a.(meetings := [], contactAttempts := [], meetingInfoSource := "") == b.(meetings := [], contactAttempts := [], meetingInfoSource := "")
  }

  /**
   * `after` holds the same officials as `before`, at the same positions and
   * with the same keys and columns, except for their related rows and the
   * meeting-info text of `infoOwner`.
   */
  predicate OnlyRelatedRowsChanged(before: seq<Official>, after: seq<Official>, infoOwner: Option<OfficialId>)
  {
    && |after| == |before|
    && forall i :: 0 <= i < |before| ==>
      && after[i].id == before[i].id
      && SameExceptWrites(after[i], before[i])
      && (after[i].meetingInfoSource != before[i].meetingInfoSource ==> infoOwner == Some(before[i].id))
  }

  lemma UpdateOnlyWrites(s: seq<Official>, id: OfficialId, e: Edit, infoOwner: Option<OfficialId>)
    requires e.SetInfoSource? ==> infoOwner == Some(id)
    ensures OnlyRelatedRowsChanged(s, UpdateOfficial(s, id, e), infoOwner)
  {
  }

  lemma SaveIfDatedOnlyWrites(s0: seq<Official>, st: StoreState, f: MeetingFormData, infoOwner: Option<OfficialId>)
    requires OnlyRelatedRowsChanged(s0, st.officials, infoOwner)
    ensures OnlyRelatedRowsChanged(s0, SaveIfDated(st, f).officials, infoOwner)
  {
    if f.date.Some? {
      UpdateOnlyWrites(st.officials, f.official, AppendMeeting(NewMeeting(f, st.nextMeetingId)), infoOwner);
    }
  }

  /**
   * A POST creates no official and deletes none: the officials keep their
   * keys and positions, and the only column of an official row that can
   * change is the meeting-info text of the representative drawn in this POST.
   */
  lemma {:induction false} PostCreatesNoOfficial(st: StoreState, d: PostData, rep: Option<Official>, now: DateTime)
    ensures OnlyRelatedRowsChanged(st.officials, PostEffect(st, d, rep, now).officials, if rep.Some? then Some(rep.value.id) else None)
  {
    var owner := if rep.Some? then Some(rep.value.id) else None;
    if AllFormsValid(st.officials, d) {
      var st1 := SaveAttempt(st, d.contactAttempt, now);
      UpdateOnlyWrites(st.officials, d.contactAttempt.official, AppendAttempt(NewContactAttempt(d.contactAttempt, now)), owner);
      if rep.Some? {
        SaveIfDatedOnlyWrites(st.officials, st1, d.nextMeeting, owner);
        var st2 := SaveIfDated(st1, d.nextMeeting);
        SaveIfDatedOnlyWrites(st.officials, st2, d.lastMeeting, owner);
        var st3 := SaveIfDated(st2, d.lastMeeting);
        UpdateOnlyWrites(st3.officials, rep.value.id, SetInfoSource(d.meetingInfo.meetingInfoSource), owner);
        var r := PostEffect(st, d, rep, now).officials;
        assert r == UpdateOfficial(st3.officials, rep.value.id, SetInfoSource(d.meetingInfo.meetingInfoSource));
        forall i | 0 <= i < |st.officials|
          ensures r[i].id == st.officials[i].id && SameExceptWrites(r[i], st.officials[i])
          ensures r[i].meetingInfoSource != st.officials[i].meetingInfoSource ==> owner == Some(st.officials[i].id)
        {
          assert st3.officials[i].id == st.officials[i].id;
        }
      }
    }
  }

  /** The view of one request; `representative` and `user` are set by `get` and `post`. */
  class CallUsRepView {
    const store: Store
    const request: Request
    var representative: Option<Official>
    var user: UserId

    constructor (store: Store, request: Request)
      ensures this.store == store && this.request == request
      ensures representative.None? && user == request.user
    {
      this.store := store;
      this.request := request;
      representative := None;
      user := request.user;
    }

    /**
     * `get_initial`: the contact-attempt form starts with the representative,
     * the acting user and the method 'phone'; the meeting forms with the
     * representative only; any other prefix gets no initial data.
     */
    function GetInitial(prefix: Option<Prefix>): (r: Option<Initial>)
      reads this
      ensures prefix == Some(ContactAttemptForm) ==> r == Some(ContactAttemptInitial(representative, user, "phone"))
      ensures prefix == Some(NextMeetingForm) || prefix == Some(LastMeetingForm) ==> r == Some(MeetingInitial(representative))
      ensures prefix.None? || prefix == Some(MeetingInfoSourceForm) ==> r.None?
    {
      match prefix
      case Some(ContactAttemptForm) => Some(ContactAttemptInitial(representative, user, "phone"))
      case Some(NextMeetingForm) => Some(MeetingInitial(representative))
      case Some(LastMeetingForm) => Some(MeetingInitial(representative))
      case _ => None
    }

    /**
     * `CallUsRepView.get_form_kwargs`: the mixin's keyword arguments, and for
     * the meeting-info form the drawn representative as the instance to edit.
     */
    method GetFormKwargs(prefix: Option<Prefix>) returns (kwargs: map<string, KwValue>)
      ensures kwargs.Keys ==
        {"initial"}
        + (if request.httpMethod in {"POST", "PUT"} then {"data", "files"} else {})
        + (if prefix == Some(MeetingInfoSourceForm) then {"instance"} else {})
      ensures kwargs["initial"] == InitialArg(GetInitial(prefix))
      ensures "data" in kwargs ==> kwargs["data"] == DataArg(request.post)
      ensures "instance" in kwargs ==> kwargs["instance"] == InstanceArg(representative)
    {
      kwargs := MixinFormKwargs(GetInitial(prefix), request);
      if prefix == Some(MeetingInfoSourceForm) {
        kwargs := kwargs["instance" := InstanceArg(representative)];
      }
    }

    function GetContextData(): (c: Context)
      reads this
      ensures c == ContextFor(representative)
    {
      ContextFor(representative)
    }

    /** `get`: draws a representative and shows the forms; nothing is written. */
    method Get(draw: nat) returns (c: Context)
      modifies this
      ensures representative == GetRepresentative(store.officials, draw)
      ensures user == request.user
      ensures c == ContextFor(representative)
    {
      representative := GetRepresentative(store.officials, draw);
      user := request.user;
      c := GetContextData();
    }

    /**
     * `post`: draws a representative afresh, validates all four forms against
     * the current store, and saves as PostEffect describes.
     */
    method Post(draw: nat, now: DateTime) returns (outcome: PostOutcome)
      requires store.Valid()
      modifies this, store
      ensures store.Valid()
      ensures representative == GetRepresentative(old(store.officials), draw)
      ensures user == request.user
      ensures store.State() == PostEffect(old(store.State()), request.post, representative, now)
      ensures outcome == PostResult(old(store.officials), request.post, representative)
    {
      representative := GetRepresentative(store.officials, draw);
      user := request.user;
      var d := request.post;
      if !AllFormsValid(store.officials, d) {
        outcome := Rerendered(GetContextData());
        return;
      }
      ghost var st0 := store.State();
      store.SaveContactAttempt(d.contactAttempt, now);
      if representative.None? {
        outcome := AttributeError;
        return;
      }
      var thanked := representative.value.name;
      if d.nextMeeting.date.Some? {
        store.SaveMeeting(d.nextMeeting);
      }
      assert store.State() == SaveIfDated(SaveAttempt(st0, d.contactAttempt, now), d.nextMeeting);
      if d.lastMeeting.date.Some? {
        store.SaveMeeting(d.lastMeeting);
      }
      store.SaveMeetingInfo(representative.value.id, d.meetingInfo);
      outcome := Redirected(CallUsRepUrlName, thanked);
    }
  }
}
