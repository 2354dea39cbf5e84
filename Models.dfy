/**
 * The records of meetings/models.py and the behaviour attached to them:
 * an official's next and last meeting, an address rendered as text, the URL
 * and service name of a social-media channel, and the key normalisation of a
 * meeting's structured notes.
 *
 * Dates are day numbers and date-times are instants, both as integers: the
 * code only compares them. "Today" is a parameter, not a clock read.
 */
module Models {
  import opened Wrappers
  import opened Seqs

  type Date = int
  type DateTime = int
  type OfficialId = nat
  type UserId = nat

  /** Political division, identified by its Open Civic Data division ID. */
  datatype Division = Division(ocdId: string, name: string)

  datatype Office = Office(name: string, division: Division)

  /** A public meeting; `sources` are the URLs of the Source records attached to it. */
  datatype Meeting = Meeting(
    id: nat,
    date: Date,
    time: Option<int>,
    location: string,
    meetingType: Option<string>,
    eventWebsite: string,
    notes: string,
    sources: seq<string>)

  /** A volunteer's contact with an official; `contactMethod` is one of MethodChoices. */
  datatype ContactAttempt = ContactAttempt(
    datetime: DateTime,
    contactMethod: string,
    contacted: bool,
    notes: string,
    user: UserId)

  const MethodChoices: set<string> := {"phone", "email"}

  datatype SocialMediaChannel = SocialMediaChannel(channelId: string, channelType: string)

  /**
   * An official together with the rows that point at it: its meetings,
   * contact attempts, social-media channels, phone numbers and email addresses.
   */
  datatype Official = Official(
    id: OfficialId,
    name: string,
    party: string,
    inOffice: bool,
    meetingInfoSource: string,
    office: Office,
    meetings: seq<Meeting>,
    contactAttempts: seq<ContactAttempt>,
    channels: seq<SocialMediaChannel>,
    phones: seq<string>,
    emails: seq<string>)
  {
    /** The meeting with the earliest date on or after `today`, if any. */
    function NextMeeting(today: Date): (r: Option<Meeting>)
      ensures r.None? <==> forall m :: m in meetings ==> m.date < today
      ensures r.Some? ==> r.value in meetings && r.value.date >= today
      ensures r.Some? ==> forall m :: m in meetings && m.date >= today ==> r.value.date <= m.date
    {
      EarliestOnOrAfter(meetings, today)
    }

    /** The meeting with the latest date strictly before `today`, if any. */
    function LastMeeting(today: Date): (r: Option<Meeting>)
      ensures r.None? <==> forall m :: m in meetings ==> m.date >= today
      ensures r.Some? ==> r.value in meetings && r.value.date < today
      ensures r.Some? ==> forall m :: m in meetings && m.date < today ==> m.date <= r.value.date
    {
      LatestBefore(meetings, today)
    }
  }

  /**
   * `filter(date__gte=today).order_by('date').first()`. The database may return
   * any of several meetings on that date, so the contract promises some meeting
   * with that date.
   */
  function EarliestOnOrAfter(ms: seq<Meeting>, today: Date): (r: Option<Meeting>)
    ensures r.None? <==> forall m :: m in ms ==> m.date < today
    ensures r.Some? ==> r.value in ms && r.value.date >= today
    ensures r.Some? ==> forall m :: m in ms && m.date >= today ==> r.value.date <= m.date
  {
    if ms == [] then None
    else
      var rest := EarliestOnOrAfter(ms[1..], today);
      assert forall m :: m in ms ==> m == ms[0] || m in ms[1..];
      if ms[0].date < today then rest
      else if rest.Some? && rest.value.date < ms[0].date then rest
      else Some(ms[0])
  }

  /**
   * `filter(date__lt=today).order_by('-date').first()`. The database may return
   * any of several meetings on that date, so the contract promises some meeting
   * with that date.
   */
  function LatestBefore(ms: seq<Meeting>, today: Date): (r: Option<Meeting>)
    ensures r.None? <==> forall m :: m in ms ==> m.date >= today
    ensures r.Some? ==> r.value in ms && r.value.date < today
    ensures r.Some? ==> forall m :: m in ms && m.date < today ==> m.date <= r.value.date
  {
    if ms == [] then None
    else
      var rest := LatestBefore(ms[1..], today);
      assert forall m :: m in ms ==> m == ms[0] || m in ms[1..];
      if ms[0].date >= today then rest
      else if rest.Some? && rest.value.date > ms[0].date then rest
      else Some(ms[0])
  }

  /**
   * No meeting is both the next and the last one, and when both exist the
   * next one is dated after the last one.
   */
  lemma NextAndLastDisjoint(o: Official, today: Date)
    requires o.NextMeeting(today).Some? && o.LastMeeting(today).Some?
    ensures o.NextMeeting(today).value != o.LastMeeting(today).value
    ensures o.LastMeeting(today).value.date < o.NextMeeting(today).value.date
  {
  }

  /** Every meeting is dated either on/after or before today, so some meeting is next or last. */
  lemma SomeMeetingIsNextOrLast(o: Official, today: Date)
    requires o.meetings != []
    ensures o.NextMeeting(today).Some? || o.LastMeeting(today).Some?
  {
    assert o.meetings[0] in o.meetings;
  }

  // ---------------------------------------------------------------------------
  // Address

  datatype Address = Address(
    line1: string,
    line2: string,
    line3: string,
    locationName: string,
    city: string,
    state: string,
    postalCode: string)

  /** The last line of a rendered address: "city, state postal_code". */
  function CityLine(a: Address): string
  {
    a.city + ", " + a.state + " " + a.postalCode
  }

  /** The lines `Address.__str__` collects before joining them. */
  function AddressLines(a: Address): seq<string>
  {
    [a.line1]
    + (if a.line2 != "" then [a.line2] else [])
    + (if a.line3 != "" then [a.line3] else [])
    + [CityLine(a)]
  }

  /** `Address.__str__`: the lines joined by newlines. */
  method AddressToString(a: Address) returns (s: string)
    ensures s == Join(AddressLines(a), "\n")
  {
    var bits := [a.line1];
    if a.line2 != "" {
      bits := bits + [a.line2];
    }
    if a.line3 != "" {
      bits := bits + [a.line3];
    }
    bits := bits + [CityLine(a)];
    assert bits == AddressLines(a);
    s := Join(bits, "\n");
  }

  /**
   * The shape of a rendered address: line1 first, the city line last, between
   * them only non-empty lines, line2 before line3; 2 to 4 lines in all.
   */
  lemma AddressLinesShape(a: Address)
    ensures var ls := AddressLines(a);
      && 2 <= |ls| <= 4
      && ls[0] == a.line1
      && ls[|ls| - 1] == CityLine(a)
      && |ls| == 2 + (if a.line2 != "" then 1 else 0) + (if a.line3 != "" then 1 else 0)
      && (forall i :: 1 <= i < |ls| - 1 ==> ls[i] != "" && (ls[i] == a.line2 || ls[i] == a.line3))
      && (a.line2 != "" ==> ls[1] == a.line2)
      && (a.line3 != "" ==> ls[|ls| - 2] == a.line3)
  {
  }

  /**
   * When no field holds a newline, the rendered address holds one newline
   * fewer than it has lines: between one and three.
   */
  lemma AddressNewlineCount(a: Address)
    requires '\n' !in a.line1 && '\n' !in a.line2 && '\n' !in a.line3
    requires '\n' !in a.city && '\n' !in a.state && '\n' !in a.postalCode
    ensures var n := CountChar(Join(AddressLines(a), "\n"), '\n');
      n == |AddressLines(a)| - 1 && 1 <= n <= 3
  {
    var ls := AddressLines(a);
    assert '\n' !in CityLine(a) by {
      assert CityLine(a) == a.city + ", " + a.state + " " + a.postalCode;
    }
    assert forall i :: 0 <= i < |ls| ==> '\n' !in ls[i];
    JoinSeparatorCount(ls, '\n');
  }

  // ---------------------------------------------------------------------------
  // Social-media channels

  /** CHANNEL_TYPE_CHOICES: stored value and display name. */
  const ChannelTypeChoices: seq<(string, string)> :=
    [("GooglePlus", "Google+"), ("YouTube", "YouTube"), ("Facebook", "Facebook"), ("Twitter", "Twitter")]

  /** `{k: v for k, v in choices}`: a later pair overrides an earlier one with the same key. */
  function LookupFromChoices(choices: seq<(string, string)>): (m: map<string, string>)
    ensures m.Keys == set i | 0 <= i < |choices| :: choices[i].0
    ensures forall k :: k in m ==> LastPairFor(choices, k, m[k])
  {
    if choices == [] then map[]
    else
      var m := LookupFromChoices(choices[..|choices| - 1]);
      LookupExtends(choices, m);
      Extended(choices, m)
  }

  /** `m` with the last pair of `choices` written into it. */
  function Extended(choices: seq<(string, string)>, m: map<string, string>): map<string, string>
    requires choices != []
  {
    m[choices[|choices| - 1].0 := choices[|choices| - 1].1]
  }

  /** Adding the last pair to the table built from the pairs before it. */
  lemma LookupExtends(choices: seq<(string, string)>, m: map<string, string>)
    requires choices != []
    requires m.Keys == set i | 0 <= i < |choices| - 1 :: choices[i].0
    requires forall k :: k in m ==> LastPairFor(choices[..|choices| - 1], k, m[k])
    ensures Extended(choices, m).Keys == (set i | 0 <= i < |choices| :: choices[i].0)
    ensures forall k :: k in Extended(choices, m) ==> LastPairFor(choices, k, Extended(choices, m)[k])
  {
    ExtendedKeys(choices, m);
    var last := choices[|choices| - 1];
    forall k | k in m && k != last.0 ensures LastPairFor(choices, k, m[k]) {
      LastPairSurvives(choices, k, m[k]);
    }
    assert LastPairFor(choices, last.0, last.1);
  }

  lemma ExtendedKeys(choices: seq<(string, string)>, m: map<string, string>)
    requires choices != []
    requires m.Keys == set i | 0 <= i < |choices| - 1 :: choices[i].0
    ensures Extended(choices, m).Keys == (set i | 0 <= i < |choices| :: choices[i].0)
  {
    var n := |choices| - 1;
    assert (set i | 0 <= i < |choices| :: choices[i].0) == (set i | 0 <= i < n :: choices[i].0) + {choices[n].0};
  }

  /** A pair that was last among the earlier pairs stays last unless the new pair has its key. */
  lemma LastPairSurvives(choices: seq<(string, string)>, k: string, v: string)
    requires choices != [] && choices[|choices| - 1].0 != k
    requires LastPairFor(choices[..|choices| - 1], k, v)
    ensures LastPairFor(choices, k, v)
  {
    var init := choices[..|choices| - 1];
    var i :| 0 <= i < |init| && init[i] == (k, v) && forall j :: i < j < |init| ==> init[j].0 != k;
    assert choices[i] == (k, v);
    forall j | i < j < |choices| ensures choices[j].0 != k {
      if j < |init| {
        assert choices[j] == init[j];
      }
    }
  }

  /** `(k, v)` is among `choices` and no later pair has the key `k`. */
  predicate LastPairFor(choices: seq<(string, string)>, k: string, v: string)
  {
    exists i :: 0 <= i < |choices| && choices[i] == (k, v) && forall j :: i < j < |choices| ==> choices[j].0 != k
  }

  /** CHANNEL_TYPE_LOOKUP. */
  function ChannelTypeLookup(): map<string, string>
  {
    LookupFromChoices(ChannelTypeChoices)
  }

  /** The URL templates of `get_url`; every template ends with `{channel_id}`, which is dropped here. */
  const UrlPrefixes: map<string, string> := map[
    "Facebook" := "https://www.facebook.com/",
    "Twitter" := "https://twitter.com/",
    "YouTube" := "https://www.youtube.com/user/",
    "GooglePlus" := "https://plus.google.com/u/0/+"
  ]

  /** A dictionary lookup on a key that is not there. */
  datatype LookupError = KeyError(key: string)

  lemma ChannelTypeLookupValue()
    ensures ChannelTypeLookup() == map[
      "GooglePlus" := "Google+", "YouTube" := "YouTube",
      "Facebook" := "Facebook", "Twitter" := "Twitter"]
  {
    var c := ChannelTypeChoices;
    assert c[..3][..2][..1][..0] == [];
    assert LookupFromChoices(c[..1]) == map["GooglePlus" := "Google+"];
    assert LookupFromChoices(c[..2]) == map["GooglePlus" := "Google+", "YouTube" := "YouTube"] by {
      assert c[..2][..1] == c[..1];
    }
    assert LookupFromChoices(c[..3]) == map["GooglePlus" := "Google+", "YouTube" := "YouTube", "Facebook" := "Facebook"] by {
      assert c[..3][..2] == c[..2];
    }
    assert c[..4] == c;
  }

  /** `get_url`: the channel type's URL prefix followed by the channel id. */
  function GetUrl(c: SocialMediaChannel): (r: Result<string, LookupError>)
    ensures r.Failure? <==> c.channelType !in {"Facebook", "Twitter", "YouTube", "GooglePlus"}
    ensures r.Failure? ==> r.error == KeyError(c.channelType)
    ensures r.Success? ==> |c.channelId| <= |r.value| && r.value[|r.value| - |c.channelId|..] == c.channelId
    ensures r.Success? ==> r.value[..|r.value| - |c.channelId|] == UrlPrefixes[c.channelType]
  {
    if c.channelType in UrlPrefixes then
      var url := UrlPrefixes[c.channelType] + c.channelId;
      assert url[|url| - |c.channelId|..] == c.channelId;
      Success(url)
    else Failure(KeyError(c.channelType))
  }

  /** `get_service_name`: the display name CHANNEL_TYPE_LOOKUP gives the channel type. */
  function GetServiceName(c: SocialMediaChannel): (r: Result<string, LookupError>)
    ensures r.Failure? <==> c.channelType !in {"Facebook", "Twitter", "YouTube", "GooglePlus"}
    ensures r.Failure? ==> r.error == KeyError(c.channelType)
    ensures c.channelType == "GooglePlus" ==> r == Success("Google+")
    ensures c.channelType in {"Facebook", "Twitter", "YouTube"} ==> r == Success(c.channelType)
  {
    ChannelTypeLookupValue();
    var lookup := ChannelTypeLookup();
    if c.channelType in lookup then Success(lookup[c.channelType]) else Failure(KeyError(c.channelType))
  }

  /**
   * Two channels of the same type have the same URL only if they have the same
   * id: the id can be read back from the URL.
   */
  lemma GetUrlInjective(c1: SocialMediaChannel, c2: SocialMediaChannel)
    requires c1.channelType == c2.channelType
    requires GetUrl(c1).Success? && GetUrl(c1) == GetUrl(c2)
    ensures c1 == c2
  {
    var p := UrlPrefixes[c1.channelType];
    var u := GetUrl(c1).value;
    assert u == p + c1.channelId && u == p + c2.channelId;
    assert c1.channelId == u[|p|..] == c2.channelId;
  }

  /** The URLs the channel test suite expects. */
  lemma ChannelExamples()
    ensures GetUrl(SocialMediaChannel("CongressmanHalRogers", "Facebook")) == Success("https://www.facebook.com/CongressmanHalRogers")
    ensures GetUrl(SocialMediaChannel("RepHalRogers", "Twitter")) == Success("https://twitter.com/RepHalRogers")
    ensures GetUrl(SocialMediaChannel("RepHalRogers", "YouTube")) == Success("https://www.youtube.com/user/RepHalRogers")
    ensures GetUrl(SocialMediaChannel("RepHalRogers", "GooglePlus")) == Success("https://plus.google.com/u/0/+RepHalRogers")
  {
    assert UrlPrefixes["Facebook"] + "CongressmanHalRogers" == "https://www.facebook.com/CongressmanHalRogers";
    assert UrlPrefixes["Twitter"] + "RepHalRogers" == "https://twitter.com/RepHalRogers";
    assert UrlPrefixes["YouTube"] + "RepHalRogers" == "https://www.youtube.com/user/RepHalRogers";
    assert UrlPrefixes["GooglePlus"] + "RepHalRogers" == "https://plus.google.com/u/0/+RepHalRogers";
  }

  /** The service names the channel test suite expects. */
  lemma ServiceNameExamples()
    ensures GetServiceName(SocialMediaChannel("CongressmanHalRogers", "Facebook")) == Success("Facebook")
    ensures GetServiceName(SocialMediaChannel("RepHalRogers", "Twitter")) == Success("Twitter")
    ensures GetServiceName(SocialMediaChannel("RepHalRogers", "YouTube")) == Success("YouTube")
    ensures GetServiceName(SocialMediaChannel("RepHalRogers", "GooglePlus")) == Success("Google+")
  {
  }

  // ---------------------------------------------------------------------------
  // Meeting notes

  /** `k.replace('-', '_')`. */
  function ReplaceHyphens(k: string): (r: string)
    ensures |r| == |k|
    ensures '-' !in r
    ensures forall i :: 0 <= i < |k| && k[i] != '-' ==> r[i] == k[i]
    ensures forall i :: 0 <= i < |k| && k[i] == '-' ==> r[i] == '_'
  {
    seq(|k|, i requires 0 <= i < |k| => if k[i] == '-' then '_' else k[i])
  }

  /** The normalised form of a parsed key: slugified, then hyphens replaced by underscores. */
  function NormalizeKey(k: string, slugify: string -> string): string
  {
    ReplaceHyphens(slugify(k))
  }

  /**
   * `Meeting.fields_from_notes`: re-keys the (already parsed) notes by their
   * normalised keys. `parsed` is what the ArchieML parser returns, in order;
   * `slugify` is the framework's slug function. When two keys normalise to the
   * same name, the later entry wins.
   */
  method FieldsFromNotes<V>(parsed: seq<(string, V)>, slugify: string -> string) returns (normalized: map<string, V>)
    ensures forall k :: k in normalized ==> '-' !in k
    ensures normalized.Keys == set i | 0 <= i < |parsed| :: NormalizeKey(parsed[i].0, slugify)
    ensures forall i :: 0 <= i < |parsed| ==>
      var k := NormalizeKey(parsed[i].0, slugify);
      (forall j :: i < j < |parsed| ==> NormalizeKey(parsed[j].0, slugify) != k) ==> normalized[k] == parsed[i].1
  {
    normalized := map[];
    var n := 0;
    while n < |parsed|
      invariant 0 <= n <= |parsed|
      invariant forall k :: k in normalized ==> '-' !in k
      invariant normalized.Keys == set i | 0 <= i < n :: NormalizeKey(parsed[i].0, slugify)
      invariant forall i :: 0 <= i < n ==>
        var k := NormalizeKey(parsed[i].0, slugify);
        (forall j :: i < j < n ==> NormalizeKey(parsed[j].0, slugify) != k) ==> normalized[k] == parsed[i].1
    {
      var (k, v) := parsed[n];
      normalized := normalized[NormalizeKey(k, slugify) := v];
      n := n + 1;
    }
  }
}
