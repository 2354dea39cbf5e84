/**
 * The JSON resource of meetings/api.py: which officials the list endpoint
 * returns, the shape of each serialised official, and the response header
 * that lets any origin read it.
 *
 * Every serialised piece has a reader beside it, and a round-trip lemma shows
 * that the reader recovers exactly the fields the API exposes.
 */
module Api {
  import opened Wrappers
  import opened Seqs
  import opened Models
  import opened Query
  import opened Http

  /** A JSON value; dates stay dates, since their textual form is the encoder's business. */
  datatype Json =
    | JNull
    | JBool(b: bool)
    | JInt(i: int)
    | JStr(s: string)
    | JDate(d: Date)
    | JList(items: seq<Json>)
    | JObject(fields: map<string, Json>)

  function MapSeq<A, B>(s: seq<A>, f: A -> B): (r: seq<B>)
    ensures |r| == |s|
    ensures forall i :: 0 <= i < |s| ==> r[i] == f(s[i])
  {
    seq(|s|, i requires 0 <= i < |s| => f(s[i]))
  }

  /** Reads every item of a JSON list with `read`; None as soon as one item does not read. */
  function ReadAll<B>(items: seq<Json>, read: Json -> Option<B>): (r: Option<seq<B>>)
    ensures r.Some? ==> |r.value| == |items|
  {
    if items == [] then Some([])
    else match (read(items[0]), ReadAll(items[1..], read))
      case (Some(x), Some(rest)) => Some([x] + rest)
      case _ => None
  }

  /** Reading back a list written item by item gives the items each reader recovers. */
  lemma {:induction false} ReadAllMapSeq<A, B>(s: seq<A>, write: A -> Json, read: Json -> Option<B>, expose: A -> B)
    requires forall x :: x in s ==> read(write(x)) == Some(expose(x))
    ensures ReadAll(MapSeq(s, write), read) == Some(MapSeq(s, expose))
  {
    if s != [] {
      ReadAllMapSeq(s[1..], write, read, expose);
      assert MapSeq(s, write)[1..] == MapSeq(s[1..], write);
      assert MapSeq(s, expose) == [expose(s[0])] + MapSeq(s[1..], expose);
    }
  }

  function ReadStr(j: Json): (r: Option<string>)
    ensures r.Some? <==> j.JStr?
    ensures r.Some? ==> j == JStr(r.value)
  {
    if j.JStr? then Some(j.s) else None
  }

  function WriteStr(s: string): Json { JStr(s) }

  /** A nullable column: None becomes JSON null. */
  function OptionalInt(v: Option<int>): Json
  {
    if v.Some? then JInt(v.value) else JNull
  }

  function OptionalStr(v: Option<string>): Json
  {
    if v.Some? then JStr(v.value) else JNull
  }

  // ---------------------------------------------------------------------------
  // The response

  /** An HTTP response whose headers the resource may still set. */
  class Response {
    var content: Json
    var status: int
    var headers: map<string, string>

    /** The response the REST framework builds: the serialised data as JSON with the given status. */
    constructor (content: Json, status: int)
      ensures this.content == content && this.status == status
      ensures headers == map["Content-Type" := "application/json"]
    {
      this.content := content;
      this.status := status;
      headers := map["Content-Type" := "application/json"];
    }

    /** `response[name] = value`. */
    method SetHeader(name: string, value: string)
      modifies this
      ensures headers == old(headers)[name := value]
      ensures content == old(content) && status == old(status)
    {
      headers := headers[name := value];
    }
  }

  /**
   * `OfficialResource.build_response`: the framework's response, with
   * `Access-Control-Allow-Origin: *` added so that pages on any origin can
   * read it; the body, the status and every other header are the framework's.
   */
  method BuildResponse(data: Json, status: int) returns (resp: Response)
    ensures fresh(resp)
    ensures resp.content == data && resp.status == status
    ensures "Access-Control-Allow-Origin" in resp.headers && resp.headers["Access-Control-Allow-Origin"] == "*"
    ensures forall h :: h in resp.headers && h != "Access-Control-Allow-Origin" ==> h == "Content-Type" && resp.headers[h] == "application/json"
  {
    resp := new Response(data, status);
    resp.SetHeader("Access-Control-Allow-Origin", "*");
  }

  // ---------------------------------------------------------------------------
  // The list endpoint

  /** A query parameter that the date parser rejected (`strptime` raises ValueError). */
  datatype ListError = InvalidDate(parameter: string, value: string)

  /** The parameter naming the date filter; note the singular "meeting", unlike the HTML list view's parameter. */
  const SinceParameter := "without_meeting_since"

  const TwitterParameter := "through_twitter"

  /**
   * `OfficialResource.list`: all officials, then the date filter when
   * `without_meeting_since` is given, then the Twitter filter when
   * `through_twitter` is given at all. No ordering is imposed.
   */
  function List(params: QueryDict, parseDate: string -> Option<Date>): (r: Result<seq<Step>, ListError>)
    ensures r.Failure? <==> QueryGet(params, SinceParameter).Some? && parseDate(QueryGet(params, SinceParameter).value).None?
    ensures r.Success? ==> |r.value| <= 2 && OrderByDivisionName !in r.value
    ensures r.Success? ==> (PromotesMeetingsThroughTwitter in r.value <==> QueryGet(params, TwitterParameter).Some?)
    ensures r.Success? ==> forall since ::
      WithoutMeetingsSince(since) in r.value <==> QueryGet(params, SinceParameter).Some? && parseDate(QueryGet(params, SinceParameter).value) == Some(since)
    ensures r.Success? && |r.value| == 2 ==> r.value[0].WithoutMeetingsSince? && r.value[1] == PromotesMeetingsThroughTwitter
  {
    var dated: Result<seq<Step>, ListError> :=
      match QueryGet(params, SinceParameter)
      case None => Success([])
      case Some(text) =>
        match parseDate(text)
        case None => Failure(InvalidDate(SinceParameter, text))
        case Some(since) => Success([WithoutMeetingsSince(since)]);
    if dated.Failure? then dated
    else if QueryGet(params, TwitterParameter).Some? then Success(dated.value + [PromotesMeetingsThroughTwitter])
    else dated
  }

  /** The Twitter filter is switched on by the presence of `through_twitter`; its value, even "false", is never read. */
  lemma TwitterValueIgnored(params: QueryDict, parseDate: string -> Option<Date>, value: string, other: string)
    ensures List(params[TwitterParameter := [value]], parseDate) == List(params[TwitterParameter := [other]], parseDate)
  {
    var p1 := params[TwitterParameter := [value]];
    var p2 := params[TwitterParameter := [other]];
    assert QueryGet(p1, SinceParameter) == QueryGet(p2, SinceParameter);
    assert QueryGet(p1, TwitterParameter).Some? && QueryGet(p2, TwitterParameter).Some?;
  }

  // ---------------------------------------------------------------------------
  // Serialising an official

  /** The fields the FieldsPreparer copies from the official itself. */
  const BaseKeys: set<string> := {"id", "name", "party", "in_office", "meeting_info_source"}

  /** The nested fields `prepare` always adds. */
  const NestedKeys: set<string> := {"meetings", "social_media", "office"}

  /** The fields a client may ask for with `include_field`. */
  const ExtraFields: set<string> := {"phones", "emails"}

  function BaseFields(o: Official): (r: map<string, Json>)
    ensures r.Keys == BaseKeys
  {
    map[
      "id" := JInt(o.id),
      "name" := JStr(o.name),
      "party" := JStr(o.party),
      "in_office" := JBool(o.inOffice),
      "meeting_info_source" := JStr(o.meetingInfoSource)]
  }

  /** The columns of an official row the base fields expose. */
  datatype OfficialColumns = OfficialColumns(id: OfficialId, name: string, party: string, inOffice: bool, meetingInfoSource: string)

  function ReadBase(fields: map<string, Json>): Option<OfficialColumns>
  {
    if BaseKeys <= fields.Keys && fields["id"].JInt? && fields["id"].i >= 0 && fields["name"].JStr? && fields["party"].JStr?
      && fields["in_office"].JBool? && fields["meeting_info_source"].JStr?
    then Some(OfficialColumns(fields["id"].i, fields["name"].s, fields["party"].s, fields["in_office"].b, fields["meeting_info_source"].s))
    else None
  }

  lemma BaseFieldsRoundTrip(o: Official)
    ensures ReadBase(BaseFields(o)) == Some(OfficialColumns(o.id, o.name, o.party, o.inOffice, o.meetingInfoSource))
  {
  }

  const MeetingKeys: set<string> := {"id", "date", "time", "meeting_type", "location", "event_website", "sources"}

  /** `_prepare_meeting`: a meeting with the URLs of its sources; its notes are not exposed. */
  function PrepareMeeting(m: Meeting): (r: Json)
    ensures r.JObject? && r.fields.Keys == MeetingKeys
  {
    JObject(map[
      "id" := JInt(m.id),
      "date" := JDate(m.date),
      "time" := OptionalInt(m.time),
      "meeting_type" := OptionalStr(m.meetingType),
      "location" := JStr(m.location),
      "event_website" := JStr(m.eventWebsite),
      "sources" := JList(MapSeq(m.sources, WriteStr))])
  }

  /** What a client learns about a meeting: everything but its notes. */
  function ExposedMeeting(m: Meeting): Meeting
  {
    m.(notes := "")
  }

  function ReadMeeting(j: Json): Option<Meeting>
  {
    if j.JObject? && MeetingKeys <= j.fields.Keys then
      var f := j.fields;
      var sources := if f["sources"].JList? then ReadAll(f["sources"].items, ReadStr) else None;
      if f["id"].JInt? && f["id"].i >= 0 && f["date"].JDate?
        && (f["time"].JNull? || f["time"].JInt?)
        && (f["meeting_type"].JNull? || f["meeting_type"].JStr?)
        && f["location"].JStr? && f["event_website"].JStr? && sources.Some?
      then
        Some(Meeting(
          f["id"].i,
          f["date"].d,
          if f["time"].JInt? then Some(f["time"].i) else None,
          f["location"].s,
          if f["meeting_type"].JStr? then Some(f["meeting_type"].s) else None,
          f["event_website"].s,
          "",
          sources.value))
      else None
    else None
  }

  /** A serialised meeting determines every field of the meeting except its notes. */
  lemma MeetingRoundTrip(m: Meeting)
    ensures ReadMeeting(PrepareMeeting(m)) == Some(ExposedMeeting(m))
  {
    ReadAllMapSeq(m.sources, WriteStr, ReadStr, (s: string) => s);
    assert MapSeq(m.sources, (s: string) => s) == m.sources;
  }

  /** Two meetings with different dates serialise differently, so the order of the list is visible to clients. */
  lemma MeetingDateVisible(m1: Meeting, m2: Meeting)
    requires m1.date != m2.date
    ensures PrepareMeeting(m1) != PrepareMeeting(m2)
  {
    MeetingRoundTrip(m1);
    MeetingRoundTrip(m2);
  }

  function DateAscending(): (le: (Meeting, Meeting) -> bool)
    ensures TotalPreorder(le)
  {
    (a: Meeting, b: Meeting) => a.date <= b.date
  }

  /** `p` lists the meetings of `ms`, each as often as there, by ascending date. */
  ghost predicate IsDateOrderOf(p: seq<Meeting>, ms: seq<Meeting>)
  {
    multiset(p) == multiset(ms) && forall i, j :: 0 <= i < j < |p| ==> p[i].date <= p[j].date
  }

  /**
   * `_prepare_meetings`: the official's meetings, ordered by date. Meetings on
   * the same date come in an order the database chooses, so the contract
   * names some date order of them rather than one.
   */
  function PrepareMeetings(o: Official): (r: Json)
    ensures r.JList? && |r.items| == |o.meetings|
    ensures exists p :: IsDateOrderOf(p, o.meetings) && r.items == MapSeq(p, PrepareMeeting)
  {
    var p := SortBy(o.meetings, DateAscending());
    assert |p| == |multiset(p)| == |o.meetings|;
    assert IsDateOrderOf(p, o.meetings);
    JList(MapSeq(p, PrepareMeeting))
  }

  lemma ReadMeetingsBack(p: seq<Meeting>)
    ensures ReadAll(MapSeq(p, PrepareMeeting), ReadMeeting) == Some(MapSeq(p, ExposedMeeting))
  {
    forall m | m in p ensures ReadMeeting(PrepareMeeting(m)) == Some(ExposedMeeting(m)) {
      MeetingRoundTrip(m);
    }
    ReadAllMapSeq(p, PrepareMeeting, ReadMeeting, ExposedMeeting);
  }

  /** Removing the item at `k` removes one copy of it. */
  lemma RemoveAt<A>(q: seq<A>, k: nat)
    requires k < |q|
    ensures multiset(q[..k] + q[k + 1..]) == multiset(q) - multiset{q[k]}
  {
    assert q == q[..k] + [q[k]] + q[k + 1..];
  }

  /** Mapping distributes over concatenation. */
  lemma MapSeqConcat<A, B>(a: seq<A>, b: seq<A>, f: A -> B)
    ensures MapSeq(a + b, f) == MapSeq(a, f) + MapSeq(b, f)
  {
  }

  /** Removing the item at `k` removes one copy of its image. */
  lemma MapRemoveAt<A, B>(q: seq<A>, k: nat, f: A -> B)
    requires k < |q|
    ensures multiset(MapSeq(q, f)) == multiset(MapSeq(q[..k] + q[k + 1..], f)) + multiset{f(q[k])}
  {
    var l := q[..k];
    var r := q[k + 1..];
    assert q == l + [q[k]] + r;
    MapSeqConcat(l + [q[k]], r, f);
    MapSeqConcat(l, [q[k]], f);
    MapSeqConcat(l, r, f);
    assert MapSeq([q[k]], f) == [f(q[k])];
  }

  /** The items left after removing the first of `p` and its copy at `k` in `q` agree as a multiset. */
  lemma RemoveMatching<A>(p: seq<A>, q: seq<A>, k: nat)
    requires multiset(p) == multiset(q) && p != [] && k < |q| && q[k] == p[0]
    ensures multiset(p[1..]) == multiset(q[..k] + q[k + 1..])
  {
    RemoveAt(q, k);
    RemoveAt(p, 0);
    assert p[..0] + p[1..] == p[1..];
  }

  /** The image of a non-empty sequence is the image of its head and of its tail. */
  lemma MapCons<A, B>(p: seq<A>, f: A -> B)
    requires p != []
    ensures multiset(MapSeq(p, f)) == multiset(MapSeq(p[1..], f)) + multiset{f(p[0])}
  {
    assert MapSeq(p, f) == [f(p[0])] + MapSeq(p[1..], f);
  }

  /** Putting the removed item back on both sides keeps the images equal as multisets. */
  lemma RestoreMatching<A, B>(p: seq<A>, q: seq<A>, k: nat, f: A -> B)
    requires p != [] && k < |q| && q[k] == p[0]
    requires multiset(MapSeq(p[1..], f)) == multiset(MapSeq(q[..k] + q[k + 1..], f))
    ensures multiset(MapSeq(p, f)) == multiset(MapSeq(q, f))
  {
    MapRemoveAt(q, k, f);
    MapCons(p, f);
  }

  /** Mapping two orderings of the same items gives two orderings of the same results. */
  lemma {:induction false} MapSeqPermutation<A, B>(p: seq<A>, q: seq<A>, f: A -> B)
    requires multiset(p) == multiset(q)
    ensures multiset(MapSeq(p, f)) == multiset(MapSeq(q, f))
    decreases |p|
  {
    if p == [] {
      assert |q| == |multiset(q)| == 0;
    } else {
      assert p[0] in multiset(q);
      var k :| 0 <= k < |q| && q[k] == p[0];
      RemoveMatching(p, q, k);
      MapSeqPermutation(p[1..], q[..k] + q[k + 1..], f);
      RestoreMatching(p, q, k, f);
    }
  }

  /**
   * A client reading the meetings list gets exactly the exposed meetings, each
   * as often as it is stored, in ascending date order.
   */
  lemma MeetingsReadInDateOrder(o: Official)
    ensures var read := ReadAll(PrepareMeetings(o).items, ReadMeeting);
      && read.Some?
      && multiset(read.value) == multiset(MapSeq(o.meetings, ExposedMeeting))
      && (forall i, j :: 0 <= i < j < |read.value| ==> read.value[i].date <= read.value[j].date)
  {
    var r := PrepareMeetings(o);
    var p :| IsDateOrderOf(p, o.meetings) && r.items == MapSeq(p, PrepareMeeting);
    ReadMeetingsBack(p);
    MapSeqPermutation(p, o.meetings, ExposedMeeting);
  }

  /** `_prepare_social_media_channel`. */
  function PrepareChannel(c: SocialMediaChannel): (r: Json)
    ensures r.JObject? && r.fields.Keys == {"channel_id", "channel_type"}
    ensures ReadChannel(r) == Some(c)
  {
    JObject(map["channel_id" := JStr(c.channelId), "channel_type" := JStr(c.channelType)])
  }

  function ReadChannel(j: Json): Option<SocialMediaChannel>
  {
    if j.JObject? && "channel_id" in j.fields && "channel_type" in j.fields
      && j.fields["channel_id"].JStr? && j.fields["channel_type"].JStr?
    then Some(SocialMediaChannel(j.fields["channel_id"].s, j.fields["channel_type"].s))
    else None
  }

  /** `_prepare_social_media`: every channel of the official, in order. */
  function PrepareSocialMedia(o: Official): (r: Json)
    ensures r.JList? && ReadAll(r.items, ReadChannel) == Some(o.channels)
  {
    ReadAllMapSeq(o.channels, PrepareChannel, ReadChannel, (c: SocialMediaChannel) => c);
    assert MapSeq(o.channels, (c: SocialMediaChannel) => c) == o.channels;
    JList(MapSeq(o.channels, PrepareChannel))
  }

  /** `_prepare_office` with `_prepare_division` nested inside it. */
  function PrepareOffice(o: Official): (r: Json)
    ensures r.JObject? && r.fields.Keys == {"name", "division"}
    ensures r.fields["division"].JObject? && r.fields["division"].fields.Keys == {"ocd_id", "name"}
  {
    JObject(map[
      "name" := JStr(o.office.name),
      "division" := JObject(map["ocd_id" := JStr(o.office.division.ocdId), "name" := JStr(o.office.division.name)])])
  }

  function ReadDivision(j: Json): Option<Division>
  {
    if j.JObject? && "ocd_id" in j.fields && "name" in j.fields && j.fields["ocd_id"].JStr? && j.fields["name"].JStr?
    then Some(Division(j.fields["ocd_id"].s, j.fields["name"].s))
    else None
  }

  function ReadOffice(j: Json): Option<Office>
  {
    if j.JObject? && "name" in j.fields && "division" in j.fields && j.fields["name"].JStr?
      && ReadDivision(j.fields["division"]).Some?
    then Some(Office(j.fields["name"].s, ReadDivision(j.fields["division"]).value))
    else None
  }

  /** The serialised office carries the office's name and its division's OCD ID and name. */
  lemma OfficeRoundTrip(o: Official)
    ensures ReadOffice(PrepareOffice(o)) == Some(o.office)
  {
  }

  /** `_prepare_phones`: one string per phone row. */
  function PreparePhones(o: Official): (r: Json)
    ensures r.JList? && ReadAll(r.items, ReadStr) == Some(o.phones)
  {
    ReadAllMapSeq(o.phones, WriteStr, ReadStr, (s: string) => s);
    assert MapSeq(o.phones, (s: string) => s) == o.phones;
    JList(MapSeq(o.phones, WriteStr))
  }

  /** `_prepare_emails`: one address per email row. */
  function PrepareEmails(o: Official): (r: Json)
    ensures r.JList? && ReadAll(r.items, ReadStr) == Some(o.emails)
  {
    ReadAllMapSeq(o.emails, WriteStr, ReadStr, (s: string) => s);
    assert MapSeq(o.emails, (s: string) => s) == o.emails;
    JList(MapSeq(o.emails, WriteStr))
  }

  /** The preparer `_prepare_<name>` of an extra field. */
  function PrepareExtra(o: Official, name: string): Json
  {
    if name == "phones" then PreparePhones(o) else PrepareEmails(o)
  }

  /** The requested names that are extra fields. */
  function Requested(names: seq<string>): (r: set<string>)
    ensures r <= ExtraFields
    ensures forall f :: f in r <==> f in names && f in ExtraFields
  {
    set f | f in names && f in ExtraFields
  }

  /**
   * The loop of `prepare` over the `include_field` values: each requested
   * extra field is added with its preparer's value; other names are skipped.
   */
  method AddRequested(start: map<string, Json>, includeFields: seq<string>, preparer: string -> Json)
    returns (prepped: map<string, Json>)
    requires start.Keys !! ExtraFields
    ensures prepped.Keys == start.Keys + Requested(includeFields)
    ensures forall k :: k in start ==> prepped[k] == start[k]
    ensures forall k :: k in Requested(includeFields) ==> prepped[k] == preparer(k)
  {
    prepped := start;
    var i := 0;
    while i < |includeFields|
      invariant 0 <= i <= |includeFields|
      invariant prepped.Keys == start.Keys + Requested(includeFields[..i])
      invariant forall k :: k in start ==> prepped[k] == start[k]
      invariant forall k :: k in Requested(includeFields[..i]) ==> prepped[k] == preparer(k)
    {
      var fieldname := includeFields[i];
      assert includeFields[..i + 1] == includeFields[..i] + [fieldname];
      if fieldname in ExtraFields {
        prepped := prepped[fieldname := preparer(fieldname)];
      }
      i := i + 1;
    }
    assert includeFields[..i] == includeFields;
  }

  /** The repeatable query parameter naming extra fields to include. */
  const IncludeFieldParameter := "include_field"

  /** The fields `prepare` adds whatever was requested: the base fields and the three nested ones. */
  method PrepareFixed(o: Official) returns (prepped: map<string, Json>)
    ensures prepped.Keys == BaseKeys + NestedKeys
    ensures forall k :: k in BaseKeys ==> prepped[k] == BaseFields(o)[k]
    ensures prepped["meetings"] == PrepareMeetings(o)
    ensures prepped["social_media"] == PrepareSocialMedia(o)
    ensures prepped["office"] == PrepareOffice(o)
  {
    prepped := BaseFields(o);
    prepped := prepped["meetings" := PrepareMeetings(o)];
    prepped := prepped["social_media" := PrepareSocialMedia(o)];
    prepped := prepped["office" := PrepareOffice(o)];
  }

  /**
   * `OfficialResource.prepare`: the base fields, the meetings, the social
   * media channels and the office always; `phones` and `emails` only when
   * named among the `include_field` values; any other requested name is ignored.
   */
  method Prepare(o: Official, params: QueryDict) returns (prepped: map<string, Json>)
    ensures prepped.Keys == BaseKeys + NestedKeys + Requested(QueryGetList(params, IncludeFieldParameter))
    ensures forall k :: k in BaseKeys ==> prepped[k] == BaseFields(o)[k]
    ensures prepped["meetings"] == PrepareMeetings(o)
    ensures prepped["social_media"] == PrepareSocialMedia(o)
    ensures prepped["office"] == PrepareOffice(o)
    ensures forall k :: k in ExtraFields && k in prepped ==> prepped[k] == PrepareExtra(o, k)
  {
    var fixed := PrepareFixed(o);
    prepped := AddRequested(fixed, QueryGetList(params, IncludeFieldParameter), (name: string) => PrepareExtra(o, name));
  }
}
