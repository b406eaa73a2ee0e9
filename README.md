# Rewards parameters mapper and notification-ad event contract, in Dafny

This project models two small sequential parts of brave-core and proves properties of the models.

1. **The Rewards `/v1/parameters` response mapper** (`GetParameters::MapResponse` and
   `GetParameters::ValueToWalletProviderRegions`). The mapper takes an HTTP response whose body
   has already been decoded into a JSON value tree. It runs a fixed chain of checks:
   - the status must be a success code;
   - the body must be a dictionary;
   - `batRate` and `autocontribute.defaultChoice` must be numbers;
   - `autocontribute.choices`, `tips.defaultTipChoices` and `tips.defaultMonthlyChoices` must be non-empty lists;
   - `payoutStatus` must be a dictionary;
   - `custodianRegions` must be a dictionary.

   Each check either returns an error or fills one more field of a fresh `RewardsParameters`
   record. The optional fields `vbatDeadline`, `vbatExpired` and `tosVersion` are copied when
   they have the right type and never cause a failure.
   - `GetParameters.Parse` states the whole outcome as one function.
   - `GetParameters.MapResponse` and its helpers (`ReadChoiceList`, `CollectChoices`, `CollectPayoutStatus`,
     `GetCountries`, `ValueToWalletProviderRegions`, `ReadOptionalFields`) do the work step by step, as the source
     does, and are proved equal to `Parse`.
   - The module `GetParametersProperties` proves, from `Parse`, which error comes out for which
     input and what each field holds on success.
2. **The notification-ad event handler, as its unit test fixes it.** The handler
   (`NotificationAdEventHandler`) reads saved ads from a `NotificationAdManager` store. It has a
   single delegate slot, filled by `SetDelegate`. `FireEvent` does two things:
   - it makes exactly one call on the delegate;
   - it returns the single run of the completion callback.

   An event fires exactly when an ad with that placement id is saved. The delegate then hears
   the hook for that event type, carrying the saved ad. Otherwise it hears `OnFailedToFire`
   with the placement id and the event type. The two test scenarios are client methods whose
   contracts reproduce the tests' expectations.

Modules: `Wrappers` (Option, Result), `Json` (a `base::Value` tree, the `Dict` lookups and the
element filter `Collect`), `GetParameters`, `GetParametersProperties`, `NotificationAdEvents`.

## Model

| member | source | states |
|---|---|---|
| `GetParameters.MapResponse` | components/brave_rewards/core/endpoints/brave/get_parameters.cc:72-186 | The check chain with its early returns yields exactly `Parse(response)`: a non-2xx status gives kUnexpectedStatusCode, a failed check gives kFailedToParseBody, and otherwise the filled parameters. |
| `GetParameters.ReadChoiceList` | components/brave_rewards/core/endpoints/brave/get_parameters.cc:105-116 | A required choice list is accepted exactly when it is present and non-empty as a raw list. When it is accepted, the result is its int/double elements in order. |
| `GetParameters.CollectChoices` | components/brave_rewards/core/endpoints/brave/get_parameters.cc:112-116 | The push_back loop returns exactly `Collect(list, GetIfDouble)`: the int and double elements in their original order. |
| `GetParameters.CollectPayoutStatus` | components/brave_rewards/core/endpoints/brave/get_parameters.cc:149-153 | The result's keys are exactly the keys whose value is a string, and each maps to that string. |
| `GetParameters.GetCountries` | components/brave_rewards/core/endpoints/brave/get_parameters.cc:37-47 | The `get_list` loop returns the string elements of the named list in order, or nothing when there is no such list. |
| `GetParameters.ValueToWalletProviderRegions` | components/brave_rewards/core/endpoints/brave/get_parameters.cc:30-60 | The emplace loop over the providers returns exactly `WalletProviderRegions(value)`. |
| `GetParameters.ReadOptionalFields` | components/brave_rewards/core/endpoints/brave/get_parameters.cc:170-183 | Each optional field is overwritten only when the body has it with the right type (and the deadline only when FromUTCString accepts it). Otherwise the field keeps the value it had. |
| `GetParametersProperties.NonSuccessStatusIgnoresBody` | components/brave_rewards/core/endpoints/brave/get_parameters.cc:74-77 | A non-success status gives kUnexpectedStatusCode, whatever the body is (even an invalid one): the status is checked first. |
| `GetParametersProperties.BodyNotDictFails` | components/brave_rewards/core/endpoints/brave/get_parameters.cc:79-83 | With a success status, a body that is not JSON, or is JSON but not a dictionary, gives kFailedToParseBody. |
| `GetParametersProperties.ParseOutcome` | components/brave_rewards/core/endpoints/brave/get_parameters.cc:72-186 | Success if and only if: the status is 2xx, the body is a dictionary, and every required field is present. With a 2xx status, every failure is kFailedToParseBody. |
| `GetParametersProperties.RequiredScalars` | components/brave_rewards/core/endpoints/brave/get_parameters.cc:87-103 | A missing or non-numeric `batRate` or `autocontribute.defaultChoice` fails. On success, `rate` and `auto_contribute_choice` are those values unchanged. |
| `GetParametersProperties.ChoiceLists` | components/brave_rewards/core/endpoints/brave/get_parameters.cc:105-141 | Each of the three choice lists must be present as a non-empty list, or the result is kFailedToParseBody. On success, each output list is `Collect` of the raw list over int/double elements. |
| `GetParametersProperties.ChoicesWithoutNumbers` | components/brave_rewards/core/endpoints/brave/get_parameters.cc:105-116 | The emptiness test is on the raw list: a non-empty `autocontribute.choices` list with no numeric element still succeeds, with an empty choice list. |
| `GetParametersProperties.PayoutStatusEntries` | components/brave_rewards/core/endpoints/brave/get_parameters.cc:143-153 | A missing or non-dictionary `payoutStatus` fails. On success, `payout_status` holds exactly the string-valued entries. |
| `GetParametersProperties.CustodianRegionsRequired` | components/brave_rewards/core/endpoints/brave/get_parameters.cc:155-168 | A missing or non-dictionary `custodianRegions` fails. On success, the wallet provider regions are what ValueToWalletProviderRegions returns for it. |
| `GetParametersProperties.WalletProviderRegionsShape` | components/brave_rewards/core/endpoints/brave/get_parameters.cc:32-58 | The result is none exactly for a non-dictionary. Otherwise the providers kept are exactly those whose value is a dictionary, and their allow/block lists come from `get_list`. |
| `GetParametersProperties.GetListCases` | components/brave_rewards/core/endpoints/brave/get_parameters.cc:37-47 | A missing or non-list region list is empty. A list gives its string elements in order. |
| `GetParametersProperties.OptionalFieldsNeverFail` | components/brave_rewards/core/endpoints/brave/get_parameters.cc:170-183 | Removing `vbatDeadline`, `vbatExpired` and `tosVersion` from the body changes neither success nor any other field. |
| `GetParametersProperties.OptionalFieldValues` | components/brave_rewards/core/endpoints/brave/get_parameters.cc:170-183 | Each optional field is copied when it has the right type (string parsed by FromUTCString, bool, int). When it is absent or of the wrong type, it keeps its default. |
| `Json.FindByTwoComponentPath` | components/brave_rewards/core/endpoints/brave/get_parameters.cc:97-98 | A dotted lookup `a.b` finds `b` inside the dictionary under `a`, and fails when `a` is missing or is not a dictionary. |
| `Json.Collect` | components/brave_rewards/core/endpoints/brave/get_parameters.cc:112-116 | The filtered list is never longer than the input. |
| `Json.CollectAppend` | components/brave_rewards/core/endpoints/brave/get_parameters.cc:112-116 | Filtering distributes over concatenation, so the input order is kept. |
| `Json.CollectSnoc` | components/brave_rewards/core/endpoints/brave/get_parameters.cc:112-116 | One more input element adds what the filter picks from it at the end, and nothing else. |
| `Json.CollectMembers` | components/brave_rewards/core/endpoints/brave/get_parameters.cc:112-116 | A value is in the filtered list if and only if some input element yields it. |
| `Json.CollectEmpty` | components/brave_rewards/core/endpoints/brave/get_parameters.cc:112-116 | The filtered list is empty if and only if no element has the wanted type. |
| `Json.CollectKeepsAll` | components/brave_rewards/core/endpoints/brave/get_parameters.cc:112-116 | When every element has the wanted type, nothing is dropped and positions are kept. |
| `Json.GetIfDouble` | components/brave_rewards/core/endpoints/brave/get_parameters.cc:113-114 | An element reads as a number exactly when it is an int or a double. |
| `NotificationAdEvents.NotificationAdEventHandler.FireEvent` | components/brave_ads/core/internal/user_engagement/ad_events/notification_ads/notification_ad_event_handler_unittest.cc:32-46 | The callback runs once with `(placement id is saved, placement id, type)`. The delegate, if set, gets exactly one more call: the type's did-fire hook with the saved ad, or OnFailedToFire. The store is unchanged. |
| `NotificationAdEvents.NotificationAdEventHandler.SetDelegate` | components/brave_ads/core/internal/user_engagement/ad_events/notification_ads/notification_ad_event_handler_unittest.cc:29 | The single delegate slot holds the given delegate. |
| `NotificationAdEvents.NotificationAdManager.Add` | components/brave_ads/core/internal/user_engagement/ad_events/notification_ads/notification_ad_event_handler_unittest.cc:51-52 | Saving an ad stores it under its placement id and leaves the other entries alone. |
| `NotificationAdEvents.DidFireHook` | components/brave_ads/core/internal/user_engagement/ad_events/notification_ads/notification_ad_event_handler_unittest.cc:56-116 | Every event type has a success hook, that hook is not the failure call, and it carries the ad. |
| `NotificationAdEvents.HookReportsItsType` | components/brave_ads/core/internal/user_engagement/ad_events/notification_ads/notification_ad_event_handler_unittest.cc:49-122 | The hook called is the one for the fired type (Served, Viewed, Clicked, Dismissed, TimedOut), and no two types share a hook. |
| `NotificationAdEvents.ChannelsAgree` | components/brave_ads/core/internal/user_engagement/ad_events/notification_ads/notification_ad_event_handler_unittest.cc:29-46 | The delegate hears a success hook if and only if the callback reports success. Both echo the requested type, and the callback echoes the placement id. |
| `NotificationAdEvents.SavedAdFires` | components/brave_ads/core/internal/user_engagement/ad_events/notification_ads/notification_ad_event_handler_unittest.cc:49-122 | For a saved ad, every event type succeeds, and the hook carries that saved ad. |
| `NotificationAdEvents.UnknownPlacementIdFails` | components/brave_ads/core/internal/user_engagement/ad_events/notification_ads/notification_ad_event_handler_unittest.cc:124-142 | For a placement id with no saved ad, every event type fails with `(false, id, type)` and OnFailedToFire. No success hook runs. |
| `NotificationAdEvents.FireEventForSavedAd` | components/brave_ads/core/internal/user_engagement/ad_events/notification_ads/notification_ad_event_handler_unittest.cc:49-122 | The fixture plus one of the five firing tests: the callback gets `(true, placement_id, type)`, and the strict delegate hears exactly `[hook(type, ad)]`. |
| `NotificationAdEvents.FireEventForMissingPlacementId` | components/brave_ads/core/internal/user_engagement/ad_events/notification_ads/notification_ad_event_handler_unittest.cc:124-142 | The missing-placement-id test: the callback gets `(false, id, type)`, and the delegate hears exactly `[OnFailedToFire(id, type)]`. |

## Left out

- `GetParameters::Request`, `OnResponse` and `CreateRequest`: asynchronous URL loading, callback plumbing and URL resolution through `EnvironmentConfig` are outside this model.
- `base::JSONReader::Read`: the body is modelled as an already-decoded `Option<Value>`, where None stands for invalid JSON. Text parsing is not modelled.
- `URLLoader::IsSuccessCode`: url_loader.cc is not part of this model. `IsSuccessCode` is taken to be the 2xx range.
- `base::Time::FromUTCString`: a foreign call, passed in as the function parameter `fromUtcString`. Times are opaque.
- Dotted paths such as `"autocontribute.defaultChoice"` are written as already-split key sequences. Splitting the string at dots is not modelled.
- Numbers are opaque. `GetDouble()` applied to an int element is kept as `IntNumber(i)`, the int it converts from, rather than the converted double. No double arithmetic is modelled.
- The defaults of mojom::RewardsParameters are not part of this model. The three optional fields are `Option`s, where None means the record's default. `NewParameters` uses zero and empty values for the rest.
- Iteration order over `payoutStatus` and `custodianRegions` is not modelled. The loops take keys in any order, and the results are maps keyed by those same unique keys. Because of that, `emplace` never meets a key twice.
- `LogError` calls have no functional effect and are omitted.
- NotificationAdEventHandler's implementation file is not part of this model. Its behaviour is modelled only as far as the unit test asserts it: success exactly when an ad is saved under the placement id.
- Ordering rules on ad events are not modelled, because no shown code or test asserts them. This covers duplicate events, terminal events and served-before-viewed order.
- The ad-handler model calls back synchronously. The `RunLoop` and gmock machinery is not modelled: the strict mock becomes a recorder of calls, and the callback becomes the returned `CallbackRun`.
- The contents of `NotificationAdInfo` are not modelled. The ad is opaque apart from its placement id.
- NotificationAdEvents.NotificationAdEventHandler.FireEvent: the model keeps the ad saved after every event, including the terminal ones (Clicked, Dismissed, TimedOut). No shown code or test removes an ad from the store, so `FireEvent` leaves the store as it was.
- NotificationAdEvents.NotificationAdManager.Add: an ad with an empty placement id is saved like any other, and firing that id then succeeds. No shown code or test treats an empty id as "no such ad".
- The test constant `kMissingPlacementId` is a parameter that only has to differ from the saved ad's placement id.
