# Shlink: visit locator and config post-processor

This project models two parts of Shlink, a URL shortener, and proves properties of both.

The first part is the **visit locator** (`LocateShortUrlVisit`). It reacts to a `ShortUrlVisited(id)` event that is sent after a visit has been recorded, and works in this order:

1. It loads the visit from the entity store. If the visit does not exist, it logs a warning and stops.
2. If the visitor's address is missing, empty or the loopback address, the visit gets the empty location and is flushed.
3. Otherwise it asks the GeoLite2 database updater to check for an update. A failed update with an older copy on disk logs a warning and carries on. A failed download with no copy logs an error and marks the visit with the unknown location, without flushing it.
4. It resolves the address. On success the visit gets that location and is flushed. A wrong address logs a warning and nothing is flushed.

The collaborators are inputs to the model: the entity store is a map from ids to `Visit` objects; the updater is the outcome of its check; the resolver is a function from addresses to resolutions. `Visit` is a class whose location field the handler changes in place. The handler is a class that records, in order, the calls it makes (`find`, `checkDbUpdate`, `resolveIpLocation`, `flush`) and the log entries it writes. Its `Invoke` method is proved against the pure function `Handle`, and the properties the tests check are proved about `Handle`.

The second part is the **config post-processor** (`ConfigPostProcessor`). It copies a set of "simplified" top-level configuration keys into the nested paths the application reads:

- `db_config` is merged into `entity_manager.connection`, the keys it supplies winning;
- `not_found_redirect_to` and `delete_short_url_threshold` also switch on a flag next to their target;
- the simplified keys themselves stay at the top level.

Configuration trees are a recursive `Value` datatype. Processing is a fold over a fixed rule table. Each rule's effect is proved in general, and the test's example is proved exactly.

Files:

- `wrappers.dfy`: `Option`.
- `visits.dfy`: `Location`, `Visitor`, `VisitLocation`, the `Visit` class.
- `locate_short_url_visit.dfy`: the handler (`EventDispatcher`).
- `config_tree.dfy`: configuration values, nested reads and writes, recursive merge.
- `config_post_processor.dfy`: the rule table and the post-processor.
- `config_example.dfy`: the test's example, worked through rule by rule.

## Model

| member | source | states |
|---|---|---|
| EventDispatcher.Handle | module/Core/test/EventDispatcher/LocateShortUrlVisitTest.php:53-198 | The visit is looked up first and exactly once. There is at most one flush, it is the last call and it happens exactly when a real location was attached. A missing visit is neither located nor flushed, and one warning names it. There is at most one log entry, except a stale-database warning followed by a wrong-address warning; an error is always the only entry. The resolver is asked only about a locatable visitor's own address, right after the database check. A real location is the empty one for an unlocatable address, else the resolver's answer. A visit is marked unknown exactly when it is locatable and no database copy is usable. |
| EventDispatcher.VisitNotFoundLogsWarning | module/Core/test/EventDispatcher/LocateShortUrlVisitTest.php:54-66 | A missing visit gives exactly one `find`, one warning naming the id, no resolver call, no flush and no location. |
| EventDispatcher.WrongAddressLogsWarning | module/Core/test/EventDispatcher/LocateShortUrlVisitTest.php:69-89 | A wrong address is resolved once and gives one warning naming the visit id. There is no flush and no location. |
| EventDispatcher.NonLocatableGetsEmptyLocation | module/Core/test/EventDispatcher/LocateShortUrlVisitTest.php:95-110 | An unlocatable visitor gets the empty location with one `find`, one flush, no resolver call and no log entry, whatever the updater and resolver would do. |
| EventDispatcher.NonLocatableAddresses | module/Core/test/EventDispatcher/LocateShortUrlVisitTest.php:112-119 | A missing address, an empty address and the loopback address are all unlocatable. |
| EventDispatcher.LocatableGetsResolvedLocation | module/Core/test/EventDispatcher/LocateShortUrlVisitTest.php:122-141 | With an up-to-date database the location is exactly what the resolver returns for the visitor's address. There is one resolver call, one flush and no log entry. |
| EventDispatcher.FailedUpdateWithOldCopyProceeds | module/Core/test/EventDispatcher/LocateShortUrlVisitTest.php:144-169 | A failed update with an old copy still resolves and attaches the resolved location. There is one `checkDbUpdate`, one flush and exactly one warning, which carries the exception. |
| EventDispatcher.FailedDownloadCancelsLocation | module/Core/test/EventDispatcher/LocateShortUrlVisitTest.php:172-198 | A failed download with no copy marks the visit unknown. There is one `checkDbUpdate`, no resolver call, no flush and one error naming the visit id and carrying the exception. |
| EventDispatcher.StaleDatabaseAndWrongAddressLogTwice | module/Core/test/EventDispatcher/LocateShortUrlVisitTest.php:78-168 | Combines two tested branches that no single test joins: the stale-copy warning (lines 165-168) and the wrong-address warning (lines 78-81). A failed update with an old copy followed by a wrong address logs both, the update warning first. |
| EventDispatcher.LocateShortUrlVisit.constructor | module/Core/test/EventDispatcher/LocateShortUrlVisitTest.php:38-51 | The handler is built over the resolver, the entity store and the updater, with an empty trace. |
| EventDispatcher.LocateShortUrlVisit.Invoke | module/Core/test/EventDispatcher/LocateShortUrlVisitTest.php:56-60 | Handling an event appends `Handle`'s calls and log entries to the trace. The visit found, if any, ends with the location `Handle` attaches and is otherwise unchanged; no other object changes. |
| Visits.Visit.constructor | module/Core/test/EventDispatcher/LocateShortUrlVisitTest.php:114-118 | A new visit keeps its short URL and visitor and has no location yet. |
| Visits.Visit.Locate | module/Core/test/EventDispatcher/LocateShortUrlVisitTest.php:134-136 | After `Locate`, the visit's location is the one given. |
| ConfigTree.GetInSetInSame | module/Core/test/ConfigPostProcessorTest.php:51-87 | Reading a path just written gives the value written, creating any missing arrays on the way. |
| ConfigTree.GetInSetInOther | module/Core/test/ConfigPostProcessorTest.php:51-87 | Writing a path leaves every path that parts ways with it unchanged. |
| ConfigTree.Merge | module/Core/test/ConfigPostProcessorTest.php:56-64 | The merged keys are the union of both sides. A key only on the left keeps its value, and a key on the right wins unless both sides hold arrays. Two arrays are merged in turn, and their keys are again the union. |
| ConfigTree.MergeFlat | module/Core/test/ConfigPostProcessorTest.php:44-49 | Merging an array of scalars on top is a right-biased union. |
| ConfigPostProcessor.Process | module/Core/test/ConfigPostProcessorTest.php:89-91 | Every top-level key outside the five target keys reads the same before and after processing. |
| ConfigPostProcessor.RulesIndependent | module/Core/test/ConfigPostProcessorTest.php:36-87 | No two writes of the rule table, including the flags, reach the same entry. |
| ConfigPostProcessor.ApplyAllAt | module/Core/test/ConfigPostProcessorTest.php:36-87 | In a list of independent rules, each rule alone decides its target and its flag: its value when its key is present, the previous entry otherwise. |
| ConfigPostProcessor.ProcessAt | module/Core/test/ConfigPostProcessorTest.php:36-87 | After processing, rule `i`'s target holds its simplified value, merged where the rule merges, and its flag is true; both are untouched if the key is absent. |
| ConfigPostProcessor.TopLevelKept | module/Core/test/ConfigPostProcessorTest.php:89-91 | Top-level keys other than the five targets keep their presence and their values. |
| ConfigPostProcessor.ProcessFrame | module/Core/test/ConfigPostProcessorTest.php:51-87 | Any entry at any depth that no rule writes, such as another key under `url_shortener`, reads the same before and after processing. |
| ConfigPostProcessor.SimplifiedKeysKept | module/Core/test/ConfigPostProcessorTest.php:36-50 | Every simplified key stays at the top level with its original value. |
| ConfigPostProcessor.DisableTrackParamOverrides | module/Core/test/ConfigPostProcessorTest.php:24-54 | `disable_track_param` replaces `app_options.disable_track_param`. |
| ConfigPostProcessor.ShortDomainMapped | module/Core/test/ConfigPostProcessorTest.php:38-71 | `short_domain_schema` and `short_domain_host` land at `url_shortener.domain.schema` and `url_shortener.domain.hostname`. |
| ConfigPostProcessor.ValidateUrlMapped | module/Core/test/ConfigPostProcessorTest.php:40-72 | `validate_url` lands at `url_shortener.validate_url`. |
| ConfigPostProcessor.NotFoundRedirectMapped | module/Core/test/ConfigPostProcessorTest.php:43-76 | `not_found_redirect_to` lands at `url_shortener.not_found_short_url.redirect_to`, and `enable_redirection` next to it becomes true. |
| ConfigPostProcessor.DbConfigMerged | module/Core/test/ConfigPostProcessorTest.php:28-64 | `db_config` is merged into an existing `entity_manager.connection` array: `Merge`'s contract gives that its keys win and the other keys already there are kept. |
| ConfigPostProcessor.DbConfigReplaces | module/Core/test/ConfigPostProcessorTest.php:44-64 | The model's own reading of cases no test covers: without an array to merge into, or when `db_config` is not an array, `db_config` is written as it is. |
| ConfigPostProcessor.DeleteThresholdMapped | module/Core/test/ConfigPostProcessorTest.php:41-86 | `delete_short_url_threshold` lands at `delete_short_urls.visits_threshold`, and `check_visits_threshold` becomes true. |
| ConfigPostProcessor.LocaleMapped | module/Core/test/ConfigPostProcessorTest.php:42-81 | `locale` lands at `translator.locale`. |
| ConfigPostProcessor.AbsentKeyChangesNothing | module/Core/test/ConfigPostProcessorTest.php:36-50 | A simplified key that is absent leaves its target and its flag as they were. |
| ConfigExample.InputIsMerge | module/Core/test/ConfigPostProcessorTest.php:89 | The example's input is the config with the simplified keys merged on top. |
| ConfigExample.ExampleProcessed | module/Core/test/ConfigPostProcessorTest.php:22-92 | Processing the test's config merged with its simplified keys gives exactly the expected config merged with the simplified keys. |

## Left out

- The implementation files `LocateShortUrlVisit.php`, `Visit.php` and `ConfigPostProcessor.php` are not part of this model. Both parts follow the behaviour their tests pin down. Where the tests are silent, the model makes its own choice, and the lines below name each one.
- How the test doubles are set up (Prophecy) is not modelled. The four collaborators become inputs, and their calls are recorded in a trace.
- Real geolocation is not modelled: the GeoLite2 file format, address parsing, and downloading or checking the freshness of the database.
- Doctrine's entity manager is reduced to `find` (a map lookup) and `flush` (a recorded call). A flush never fails.
- Log messages are tagged entries carrying the visit id or the exception. The wording and the `{e}` placeholder are left out.
- `Location` stores its coordinates as exact reals, so floating-point behaviour is not modelled.
- `IpAddress::LOCALHOST` is taken to be `"127.0.0.1"`; its value comes from a library that is not part of this model.
- EventDispatcher.Handle: an unlocatable address short-circuits before the database check. The tests do not fix this order. So the model does not capture a handler that checks the database first. For an unlocatable address, such a handler would mark the visit unknown instead of empty when the download fails. It would also log the stale-copy warning when an old copy remains.
- EventDispatcher.Handle: in the no-copy case the visit is assigned the unknown location in memory. The tests cannot tell this apart from a getter that reports "unknown" for a visit that was never located.
- The controller in `UpdateTagActionTest.php` and the test-data loading in `ShortUrlsFixture.php` are not modelled. They are request/response plumbing and Doctrine fixtures with no logic of their own.
- ConfigPostProcessor.Process: the rule table is rebuilt from the single example. Keys, paths and flags are exactly the ones that example shows, and no other simplified keys are known.
- EventDispatcher.LocateShortUrlVisit.Invoke: the updater's outcome is fixed when the handler is built. So one handler cannot model an updater whose outcome changes from one event to the next.
- ConfigPostProcessor.DbConfigReplaces: writing a scalar `db_config` as it is, or writing `db_config` where no `entity_manager.connection` array exists, is the model's own reading. The test only merges an array into an existing array.
- ConfigTree.SetIn: replacing a scalar found on a target path by a new array is the model's own reading, because no test has a scalar there. Creating missing intermediate arrays is what the test shows for `url_shortener`, `translator` and `delete_short_urls`.
- ConfigPostProcessor.AbsentKeyChangesNothing: that an absent simplified key writes nothing is the model's reading. The example supplies every key.
- ConfigTree.Merge: only string keys are modelled. PHP's renumbering and appending of integer-keyed lists in a merge is not.
- PHP `null` values are not a `Value`. The difference between a key set to `null` and a missing key (`isset` against `array_key_exists`) is not modelled.
- The order of keys in a PHP array is not modelled. Configurations are maps, and the test's `assertEquals` ignores key order.
