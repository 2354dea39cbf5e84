# publicmeetings in Dafny

This project models the logic of **publicmeetings**, a Django site where
volunteers track the public meetings (town halls) held by elected officials. It
covers four parts of the `meetings` app and one part of the `email_username_auth` app:

- **Query helpers** (`Query`). These select the members of the US House of
  Representatives by their Open Civic Data division ID. They also keep the
  officials with no meetings or no contact attempts, and sort officials by how
  often volunteers tried to contact them.
- **Model-level derivations** (`Models`):
  - an official's next and last meeting;
  - the postal form of an address;
  - the URL and the service name of a social-media channel;
  - the normalised keys of the structured notes of a meeting.
- **Views** (`Views`):
  - the list of officials;
  - the multiple-forms machinery;
  - the "call a US representative" page. That page draws an eligible
    representative at random. When all four of its forms are submitted valid, it
    saves a contact attempt, up to two meetings and the representative's
    meeting-info text.
- **JSON API** (`Api`): the list filters of the official resource, the shape
  of each serialised official, and the cross-origin header.
- **Accounts** (`Accounts`, `AccountForms`, `Registration`):
  - a user model whose username is the email address;
  - its manager, which creates users and superusers;
  - the admin password forms;
  - a registration view. It mails a login code, and it mails one again when the
    address is already registered.

The database is a `Views.Store` object. It holds the officials, each together
with its meetings, contact attempts, channels, phones and emails.

Some things come from outside the code and become parameters instead:
- the current date and time;
- the random draw (a `draw: nat` index into the eligible officials);
- the date parser;
- `slugify`, `normalize_email` and the two query-set filters that no shown file
  defines.

Dates and date-times are integers. A form's own field validation is an
abstract `clean` flag. The checks that can be stated are modelled on top of it:
the hidden `official` key must name a stored official, and the contact method
must be one of `phone` and `email`.

Layout:
- `Wrappers.dfy`: `Option` and `Result`.
- `Seqs.dfy`: filter, sort and join on sequences.
- `Http.dfy`: the query string.
- The other files each follow one source module.

Behaviours that the code has and that the model keeps:
- On POST, the call view draws a new representative. It does not reuse the
  one shown on GET.
- If no one is eligible, the view saves the contact attempt and then fails with
  AttributeError when it builds the thank-you message. The contact attempt
  stays saved.
- The saved contact attempt and meetings go to the official named in the posted
  hidden field. The meeting-info text goes to the representative drawn for this
  POST.
- The HTML list view reads `without_meetings_since`. The API reads
  `without_meeting_since`.

## Model

| member | source | states |
|---|---|---|
| Query.IsUsRepDivision | meetings/query.py:7-8 | true iff some position of the ID starts `ocd-division/country:us/state:`, two lower-case letters, `/cd:` and at least one digit; the match is unanchored |
| Query.FindPattern | meetings/query.py:7-8 | returns the first position at or after `from` where the pattern matches, or None when no later position matches |
| Query.UsReps | meetings/query.py:5-8 | keeps exactly the officials whose division ID contains a match; the result is a sub-multiset of the input |
| Query.KentuckyFifthIsUsRep | meetings/query.py:7-8 | `ocd-division/country:us/state:ky/cd:5` is a House district |
| Query.NoDistrictNoMatch | meetings/query.py:7-8 | an ID without `/cd:` followed by a digit is not a House district |
| Query.StateDivisionIsNotUsRep | meetings/query.py:7-8 | a state's own division ID is dropped |
| Query.MatchSurvivesContext | meetings/query.py:7-8 | text added before or after a matching ID keeps it matching, so the lookup is a search |
| Query.WithoutMeetings | meetings/query.py:10-12 | keeps exactly the officials with no meeting |
| Query.WithoutContactAttempts | meetings/query.py:14-16 | keeps exactly the officials with no contact attempt |
| Query.FiltersPreserveOrder | meetings/query.py:10-16 | each of the three filters (`without_meetings`, `without_contact_attempts`, `us_reps`) distributes over concatenation, so the kept officials stay in their relative order |
| Query.FiltersIdempotent | meetings/query.py:5-16 | applying any of the three filters twice equals applying it once |
| Query.FiltersCommute | meetings/query.py:5-16 | the three filters commute pairwise |
| Query.AttemptOrder | meetings/query.py:18-24 | comparing contact-attempt counts, ascending or descending, is a total preorder |
| Query.OrderByContactAttempts | meetings/query.py:18-24 | the result is a permutation of the input, non-decreasing by contact-attempt count, or non-increasing when `desc` |
| Query.DivisionNameOrder | meetings/views.py:86 | ordering by division name is a total preorder and agrees with code-point string order |
| Query.StrLeTotal | meetings/views.py:86 | any two division names are comparable |
| Query.StrLeTransitive | meetings/views.py:86 | string order is transitive |
| Query.EvaluateOrdered | meetings/views.py:78-86 | whatever filters come first, a query ending in the division-name ordering returns exactly the filtered officials (as a multiset), sorted by division name |
| Models.Official.NextMeeting | meetings/models.py:73-74 | the meeting with the smallest date on or after today; None iff every meeting is before today |
| Models.Official.LastMeeting | meetings/models.py:76-77 | the meeting with the largest date strictly before today; None iff no meeting is before today |
| Models.EarliestOnOrAfter | meetings/models.py:73-74 | same promise as NextMeeting, for any meeting sequence |
| Models.LatestBefore | meetings/models.py:76-77 | same promise as LastMeeting, for any meeting sequence |
| Models.NextAndLastDisjoint | meetings/models.py:73-77 | the next and the last meeting are never the same meeting; the last is dated before the next |
| Models.SomeMeetingIsNextOrLast | meetings/models.py:73-77 | an official with any meeting has a next or a last one |
| Models.AddressToString | meetings/models.py:96-105 | the lines built step by step, joined by newlines, equal the address's lines |
| Models.AddressLinesShape | meetings/models.py:96-105 | line1 comes first and "city, state postal_code" last; line2 and line3 appear only when non-empty, in that order; 2 to 4 lines |
| Models.AddressNewlineCount | meetings/models.py:96-105 | without newlines inside fields, the string has 1 to 3 newline characters, one per extra line |
| Models.LookupFromChoices | meetings/models.py:118 | the lookup table's keys are exactly the first elements of the choices, and each key maps to the value of the last pair with that key |
| Models.ChannelTypeLookupValue | meetings/models.py:111-118 | the lookup maps GooglePlus to "Google+" and YouTube, Facebook and Twitter to themselves |
| Models.GetUrl | meetings/models.py:127-134 | a KeyError iff the channel type is not one of the four; otherwise the per-type prefix followed by the channel ID |
| Models.GetServiceName | meetings/models.py:136-137 | a KeyError iff the type is unknown; "Google+" for GooglePlus, the type itself for the other three |
| Models.GetUrlInjective | meetings/models.py:127-134 | two channels of one type with the same URL are the same channel |
| Models.ChannelExamples | meetings/tests.py:19-90 | the URLs of the test suite's Facebook, Twitter, YouTube and GooglePlus channels |
| Models.ServiceNameExamples | meetings/tests.py:19-90 | the service names of the same four channels |
| Models.ReplaceHyphens | meetings/models.py:194 | same length, no '-' left, each '-' becomes '_', every other character kept |
| Models.FieldsFromNotes | meetings/models.py:190-196 | the keys are exactly the normalised parsed keys, none contains '-', and each key holds the value of the last parsed key normalising to it |
| Views.UpdateOfficial | meetings/views.py:249-262 | saving a row edits only the official with that key; length and keys are kept |
| Views.UpdateCounts | meetings/views.py:249-262 | editing a stored official adds exactly the one contact attempt or meeting the edit names |
| Views.Store.SaveContactAttempt | meetings/views.py:249 | one contact attempt, stamped now, added to the posted official |
| Views.Store.SaveMeeting | meetings/views.py:256-260 | one meeting with the next key added to the posted official |
| Views.Store.SaveMeetingInfo | meetings/views.py:262 | the bound official's meeting-info text replaced |
| Views.ListViewQuery | meetings/views.py:78-86 | a date filter iff `without_meetings_since` is present, failing when it does not parse; always the division-name ordering last |
| Views.ListViewOrdered | meetings/views.py:78-86 | the list page shows exactly the officials the date filter kept (as a multiset), sorted by division name |
| Views.MixinFormKwargs | meetings/views.py:113-126 | `initial` always; `data` and `files` exactly for POST and PUT |
| Views.MixinSuccessUrl | meetings/views.py:128-138 | the configured URL, or ImproperlyConfigured when it is unset or empty |
| Views.ProcessPost | meetings/views.py:172-178 | redirect to the success URL iff every form is valid; otherwise the forms again |
| Views.EligibleOfficials | meetings/views.py:206-211 | exactly the House members with no meeting and no contact attempt |
| Views.GetRepresentative | meetings/views.py:206-211 | None iff no official is eligible; otherwise an eligible stored official |
| Views.EveryEligibleCanBeDrawn | meetings/views.py:206-211 | every eligible official is the result of some draw |
| Views.DrawnRepresentativeIsStored | meetings/views.py:206-211 | a drawn representative is a stored official |
| Views.ContextFor | meetings/views.py:225-235 | no contact attempts without a representative; otherwise its attempts, newest first, as a permutation |
| Views.DrawnRepresentativeHasNoAttemptsListed | meetings/views.py:206-235 | right after a draw the page lists no contact attempts |
| Views.PostResult | meetings/views.py:242-266 | the forms again iff one is invalid; AttributeError iff all are valid and none was drawn; otherwise a redirect to `call-us-rep` thanking the drawn representative |
| Views.SaveIfDatedGrows | meetings/views.py:256-260 | a meeting form adds a meeting exactly when its date is filled; its key is used by no stored meeting, and every meeting key stays below the next one |
| Views.RepresentativeFormsGrow | meetings/views.py:256-262 | after a draw, the meetings added are the dated meeting forms |
| Views.PostCounts | meetings/views.py:247-266 | an invalid POST changes nothing; a valid one adds exactly one contact attempt and, after a draw, one meeting per dated form (0 to 2); official keys stay distinct, every meeting key stays below the next one (so new meetings get unused keys), and no official appears or disappears |
| Views.UpdateOnlyWrites | meetings/views.py:249-262 | a save changes only related rows and, for the info form, the bound official's text |
| Views.SaveIfDatedOnlyWrites | meetings/views.py:256-260 | saving a meeting form changes no official's own columns |
| Views.PostCreatesNoOfficial | meetings/views.py:242-274 | a POST keeps every official's position, key and columns; only the drawn representative's meeting-info text may change |
| Views.CallUsRepView.GetInitial | meetings/views.py:213-223 | the contact-attempt form starts with the representative, the user and "phone"; the meeting forms with the representative; any other prefix gets nothing |
| Views.CallUsRepView.GetFormKwargs | meetings/views.py:268-274 | the mixin's kwargs, plus the representative as `instance` for the meeting-info form only |
| Views.CallUsRepView.GetContextData | meetings/views.py:225-235 | the context for the current representative |
| Views.CallUsRepView.Get | meetings/views.py:237-240 | draws a representative and records the user; nothing is written |
| Views.CallUsRepView.Post | meetings/views.py:242-266 | draws afresh, and the store's new state and the response are those of PostEffect and PostResult for that draw |
| Api.Response.SetHeader | meetings/api.py:20 | sets one header and leaves the body and status alone |
| Api.BuildResponse | meetings/api.py:18-21 | the framework's JSON response with `Access-Control-Allow-Origin: *` added |
| Api.List | meetings/api.py:23-36 | a date filter iff `without_meeting_since` is present, failing when it does not parse; the Twitter filter iff `through_twitter` is present; no ordering |
| Api.TwitterValueIgnored | meetings/api.py:32-34 | the value of `through_twitter` does not matter |
| Api.BaseFields | meetings/api.py:10-16 | exactly id, name, party, in_office and meeting_info_source |
| Api.BaseFieldsRoundTrip | meetings/api.py:10-16 | the base fields give back the official's five columns |
| Api.PrepareMeeting | meetings/api.py:56-67 | exactly id, date, time, meeting_type, location, event_website and sources |
| Api.MeetingRoundTrip | meetings/api.py:56-67 | a serialised meeting gives back every field but the notes, including its source URLs |
| Api.MeetingDateVisible | meetings/api.py:56-67 | meetings with different dates serialise differently |
| Api.PrepareMeetings | meetings/api.py:53-54 | one entry per meeting, serialising some date-ascending permutation of the meetings |
| Api.MeetingsReadInDateOrder | meetings/api.py:53-67 | a client reads back exactly the official's exposed meetings (notes left out), each as often as it is stored (equal multisets), in ascending date order |
| Api.PrepareChannel | meetings/api.py:73-77 | exactly the keys `channel_id` and `channel_type`, which read back as the channel |
| Api.PrepareOffice | meetings/api.py:79-89 | exactly the keys `name` and `division`, the division exactly `ocd_id` and `name` |
| Api.PrepareSocialMedia | meetings/api.py:69-77 | reading the list back gives the official's channels in order |
| Api.OfficeRoundTrip | meetings/api.py:79-89 | the serialised office gives back the office name and its division's OCD ID and name |
| Api.PreparePhones | meetings/api.py:91-95 | reading the list back gives the official's phone numbers, one per phone |
| Api.PrepareEmails | meetings/api.py:97-101 | reading the list back gives the official's addresses, one per email |
| Api.Prepare | meetings/api.py:38-51 | always the base fields, meetings, social_media and office; phones and emails exactly when named among the `include_field` values; other requested names ignored |
| Accounts.SetDefault | email_username_auth/models.py:29-30 | adds the key with the default only when it is absent |
| Accounts.UserDefaults | email_username_auth/models.py:28-31 | the caller's fields, plus is_staff and is_superuser False when not given |
| Accounts.SuperuserDefaults | email_username_auth/models.py:37-43 | ValueError iff a flag is given as anything but True (the staff flag first); otherwise both flags default to True |
| Accounts.SuperuserFlagsSet | email_username_auth/models.py:37-45 | an accepted superuser has both flags True |
| Accounts.UserManager.CreateUserWithFields | email_username_auth/models.py:16-26 | ValueError and no save for a missing or empty email; otherwise one saved user with the normalised email, the password set and the fields |
| Accounts.UserManager.CreateUser | email_username_auth/models.py:28-31 | `_create_user` with the non-privileged defaults |
| Accounts.UserManager.CreateSuperuser | email_username_auth/models.py:33-45 | the flag errors first, then `_create_user` with the privileged defaults; nothing saved on error |
| Accounts.GetFullName | email_username_auth/models.py:89-93 | the full name when non-blank, the email otherwise |
| Accounts.GetShortName | email_username_auth/models.py:95-97 | the email |
| Accounts.ToString | email_username_auth/models.py:99-100 | the email |
| Accounts.NamesAgreeWithoutFullName | email_username_auth/models.py:89-100 | without a full name, all three display names are the email |
| AccountForms.CleanPassword2 | email_username_auth/forms.py:33-39 | "Passwords don't match" iff both entries are given and differ; otherwise password2 unchanged |
| AccountForms.ConfirmedPasswordIsSecondEntry | email_username_auth/forms.py:33-39 | when both entries are given and accepted, they are equal |
| AccountForms.SaveCreationForm | email_username_auth/forms.py:41-47 | the password set from password1; the user saved only when `commit` |
| AccountForms.CleanPassword | email_username_auth/forms.py:68-72 | the initial password, whatever was submitted; KeyError when the form has none |
| Registration.UserIsAlreadyRegistered | email_username_auth/views.py:27-36 | false without username errors; true iff the username field has exactly one error and its code is `unique` |
| Registration.SecondErrorMeansNotRegistered | email_username_auth/views.py:33-36 | a second username error turns the answer to false |
| Registration.RegistrationView.SendLoginCode | email_username_auth/views.py:38-45 | one login code for the username, with the `next` parameter |
| Registration.RegistrationView.Register | email_username_auth/views.py:47-50 | `create_user` with the cleaned email and no password |
| Registration.RegistrationView.FormValid | email_username_auth/views.py:14-17 | an empty email is a ValueError with nothing saved or sent; otherwise exactly one user (normalised email, unusable password, non-privileged defaults) is appended to the kept users, then a code goes to its stored, normalised address |
| Registration.RegistrationView.FormInvalid | email_username_auth/views.py:19-25 | a code to the submitted address iff already registered; otherwise the errors are shown and nothing is sent |

## Left out

- Persistence, HTTP, templates, the messages framework, login requirements and
  the REST framework's base resource. The model keeps only what they pass to
  and from the code above.
- Database details:
  - the database's unique constraint on user emails;
  - cascade deletion;
  - the Division model's default ordering;
  - transactions. The model assumes Django's default `ATOMIC_REQUESTS = False`;
    under it a POST that fails with AttributeError keeps the contact attempt
    it already saved. The project's settings are not part of this model.
- `Query.DivisionNameOrder`: the database collation that `order_by` on the
  division name uses is modelled as code-point order of the characters.
- How the database orders meetings that share a date. `Api.PrepareMeetings`
  promises some date order of them.
- `Accounts.UserManager.CreateUserWithFields`: a keyword argument that names
  no column of the user model, or that repeats `email`, makes the model
  constructor raise TypeError. This is not modelled: any extra fields are
  stored as given.
- `Query.IsUsRepDivision`: `\d` is modelled as the ASCII digits. Python's
  Unicode digits and the database's regex dialect are not modelled.
- `Views.CallUsRepView.Post`: the random `order_by('?')` is a `draw` index. The
  database's random generator is not modelled.
- `Models.FieldsFromNotes`: the ArchieML parser and `slugify` are inputs. Their
  text processing is not modelled.
- The JSON encoder's rendering of dates and times, and of the time of day.
- `without_meetings_since`, `promotes_meetings_through_twitter`, `strptime`,
  `normalize_email` and the password hasher are uninterpreted parameters.
  Passwords are kept as the raw text they were set from.
- `authenticate` and `send_login_code` from the login-code library.
  `Registration.RegistrationView.SendLoginCode` records the code in an outbox.
  It does not look up the user, and it ignores the request's scheme and host.
- `MeetingCreateView`, the official detail view, the admin, URL routing,
  migrations and the `createusreps` command, which loads officials from a web
  API. None of them is part of this model.
- Form field validation (required fields, URL and date syntax) is an abstract
  `clean` flag per form.
- `QueryDict.get` on a parameter given with an empty value list. A real query
  string never produces one, and the model returns None for it.
