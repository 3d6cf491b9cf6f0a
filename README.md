# StarCitizenAPIWrapper: JSON-to-record conversion

`StarCitizenClient` fetches a response, takes its `data` member and hands it to a
generic mapping engine (`GenericJsonParser`) together with a dictionary of
per-field transforms. This project models what the client itself decides around
that engine:

- the transforms it registers for ship, organization, profile and roadmap fields
  (enum matching with a fallback member, hyphen stripping, the `"1"` flag, the
  focus and headline records, the page pair, the enlistment date, fluency and
  media lists);
- how a response's `data` becomes a list: array or single item, empty `data`,
  and skipped empty ship entries;
- the flattening of a ship's compiled component groups
  (`ParseShipCompiled`/`ParseShipComponents`) and the roadmap card thumbnail's
  url table (`ParseRoadMapCardThumbnail`), as loops proved against recursive
  specifications;
- the field tables of `StarCitizenShip`, `StarCitizenOrganization` and
  `StarCitizenUserProfile`: each field's declared type and `[ApiName]` key
  override. It also covers their enums and fallback members;
- `HttpClientService`: the null-client check, the success/failure decision of
  `Get`, and the failure message.

The parsed response is a `Json` value (`JsonValue`). `Option<Json>` tells a C#
null token (`None`) apart from a JSON `null` literal (`Some(Null)`). Every
exception the code can throw on its path is an `Outcome` failure that names its
kind (`Fault`). Indexing a token that is neither null nor an object throws, so
`Index` fails exactly there. `Text` is the token's string form.

The engine is not part of this model. Its per-item parse, its safe integer
coercion (`coerceInt`), its default key derivation (`deriveKey`) and the date
parse (`parseDate`) are parameters, and nothing is assumed about them. The
per-item parse returns an `Outcome`, because parsing one item may throw. The
list-building operations then fail with the first failing item's fault, and
they succeed exactly when every item parses.

Modules, one file each: `Wrappers`, `Numerals`, `JsonValue`, `EnumNames`,
`FieldTables`, `Collect`, `Ships`, `Organization`, `UserProfile`,
`HttpService`, `ClientTransforms`, `ResponseShapes`, `ShipCompiled`,
`RoadmapThumbnail`.

## Model

| member | source | states |
|---|---|---|
| JsonValue.Index | src/StarCitizenAPIWrapper.Library/StarCitizenClient.cs:182-186 | `token?[key]` fails exactly when the token is a non-null non-object; otherwise it is the member, or null when absent or when the token is null |
| JsonValue.TextIsEmpty | src/StarCitizenAPIWrapper.Library/StarCitizenClient.cs:306 | a token's string form is empty exactly for the JSON null and the empty string |
| JsonValue.TextIsOne | src/StarCitizenAPIWrapper.Library/StarCitizenClient.cs:331 | a token's string form is "1" exactly for the string "1" and the number 1 |
| EnumNames.TryParse | src/StarCitizenAPIWrapper.Library/StarCitizenClient.cs:173 | name parse: succeeds iff some member's name matches (exactly, or ignoring case when asked), and the result is such a member |
| EnumNames.ParseOrFallback | src/StarCitizenAPIWrapper.Library/StarCitizenClient.cs:270-272 | the result is the fallback or a member whose name matches the value |
| EnumNames.ParseOrFallbackIs | src/StarCitizenAPIWrapper.Library/StarCitizenClient.cs:270-272 | over all members with unambiguous names: the result is e iff e's name matches, or e is the fallback and no name matches |
| FieldTables.SourceKey | src/StarCitizenAPIWrapper.Models/Ships/StarCitizenShip.cs:18-19 | a field is read from its `[ApiName]` override when declared, else from the engine's derived key |
| FieldTables.Resolve | src/StarCitizenAPIWrapper.Library/StarCitizenClient.cs:262-298 | a field goes to a transform iff one is registered under its name, else to default coercion of its declared type; either way at its source key |
| Collect.MapAll | src/StarCitizenAPIWrapper.Library/StarCitizenClient.cs:266 | `Select(f).ToArray()` with a throwing `f`: succeeds iff every item maps, then one result per item in order; a failure is the first item's failure |
| Collect.MapAllConcat | src/StarCitizenAPIWrapper.Library/StarCitizenClient.cs:266 | mapping a concatenation maps the first part, then the second, and joins the results; a failure in the first part wins |
| Collect.MapAllInOrder | src/StarCitizenAPIWrapper.Library/StarCitizenClient.cs:266 | the mapped list satisfies the in-order rule: success iff every item parses, pointwise results, first failure |
| Collect.FlatMapAllAppend | src/StarCitizenAPIWrapper.Library/StarCitizenClient.cs:621-647 | flattening a concatenation that succeeds flattens both parts and joins their results in order |
| Collect.FlatMapAllSucceeds | src/StarCitizenAPIWrapper.Library/StarCitizenClient.cs:621-647 | the flattening succeeds iff every item's list is built |
| Collect.FlatMapAllAt | src/StarCitizenAPIWrapper.Library/StarCitizenClient.cs:621-647 | on success, item i's results sit, in order, right after the results of the items before it |
| Ships.ProductionStatusNamesUnambiguous | src/StarCitizenAPIWrapper.Models/Ships/StarCitizenShip.cs:159-166 | every status is listed and no two status names are equal ignoring case |
| Ships.ShipSizeNamesUnambiguous | src/StarCitizenAPIWrapper.Models/Ships/StarCitizenShip.cs:171-180 | every size is listed and no two size names are equal ignoring case |
| Ships.ShipTypeNamesUnambiguous | src/StarCitizenAPIWrapper.Models/Ships/StarCitizenShip.cs:185-197 | every ship type is listed and no two type names are equal ignoring case |
| Ships.ShipCompiledClassNamesUnambiguous | src/StarCitizenAPIWrapper.Models/Ships/StarCitizenShip.cs:202-210 | every compiled class is listed and the class names are distinct |
| Ships.ProductionStatusNamesHaveNoHyphen | src/StarCitizenAPIWrapper.Models/Ships/StarCitizenShip.cs:159-166 | no production status name contains a hyphen |
| Ships.FallbackMembers | src/StarCitizenAPIWrapper.Models/Ships/StarCitizenShip.cs:171-210 | sizes and types have an `Undefined` member; compiled classes have none, so "Undefined" does not parse as one |
| Ships.ShipApiName | src/StarCitizenAPIWrapper.Models/Ships/StarCitizenShip.cs:13-152 | exactly the thirteen fields with an `[ApiName]` attribute (AfterburnerSpeed, ChassisId, MaxCrew, MinCrew, PitchMax, ProductionNote, ProductionStatus, RollMax, ScmSpeed, the three axis accelerations and YawMax) have a key override |
| Ships.ShipFieldType | src/StarCitizenAPIWrapper.Models/Ships/StarCitizenShip.cs:13-152 | the enum-typed fields are exactly ProductionStatus, Size and Type, and TimeModified is the only date |
| Ships.ShipOverriddenKeys | src/StarCitizenAPIWrapper.Models/Ships/StarCitizenShip.cs:18-105 | AfterburnerSpeed, ChassisId, MaxCrew, MinCrew and ProductionStatus are read from afterburner_speed, chassis_id, max_crew, min_crew and production_status, whatever the derived key is |
| Ships.ShipDerivedKeys | src/StarCitizenAPIWrapper.Models/Ships/StarCitizenShip.cs:23-127 | Beam, CargoCapacity, Size and Type have no override: their keys are the engine's derivation from the field name |
| Organization.ArchetypeNamesUnambiguous | src/StarCitizenAPIWrapper.Models/Organization/StarCitizenOrganization.cs:117-127 | every archetype is listed, the names are distinct, and `Undefined` is a member |
| Organization.FocusTypesListed | src/StarCitizenAPIWrapper.Models/Organization/StarCitizenOrganization.cs:95-112 | every focus type is listed, and the first (the zero value) is BountyHunting |
| Organization.FocusTypeNamesUnambiguous | src/StarCitizenAPIWrapper.Models/Organization/StarCitizenOrganization.cs:95-112 | the focus names are distinct and none is "Undefined": the enum has no fallback member |
| Organization.OrganizationDescriptor | src/StarCitizenAPIWrapper.Models/Organization/StarCitizenOrganization.cs:8-67 | only Language has a key override; Archetype is the only enum field; Recruiting and RolePlaying are exactly the bool fields |
| Organization.OrganizationNamesDistinct | src/StarCitizenAPIWrapper.Models/Organization/StarCitizenOrganization.cs:8-67 | no two organization fields share a name |
| Organization.OrganizationSourceKeys | src/StarCitizenAPIWrapper.Models/Organization/StarCitizenOrganization.cs:8-67 | Language is read from `lang`; every other field, Members and Recruiting among them, from its derived key |
| UserProfile.ProfileDescriptor | src/StarCitizenAPIWrapper.Models/User/StarCitizenUserProfile.cs:9-56 | only BadgeImage has a key override; Enlisted is the only date and Fluency the only list |
| UserProfile.ProfileNamesDistinct | src/StarCitizenAPIWrapper.Models/User/StarCitizenUserProfile.cs:9-56 | no two profile fields share a name |
| UserProfile.ProfileSourceKeys | src/StarCitizenAPIWrapper.Models/User/StarCitizenUserProfile.cs:9-56 | BadgeImage is read from `badge_image`, every other field from its derived key; Badge, Display, Handle, Id and Image are strings |
| HttpService.NewHttpClientService | src/StarCitizenAPIWrapper.Library/Services/IHttpClientService.cs:28-31 | construction fails with an argument-null fault iff the client is null, else keeps the client |
| HttpService.GenerateGetException | src/StarCitizenAPIWrapper.Library/Services/IHttpClientService.cs:55-58 | the message starts with "Status Code: " and ends with the url |
| HttpService.Get | src/StarCitizenAPIWrapper.Library/Services/IHttpClientService.cs:33-41 | succeeds iff the status is 200-299, then with the body unchanged; otherwise fails with the message for status, reason and url, never the body |
| HttpService.StatusCodeRoundTrip | src/StarCitizenAPIWrapper.Library/Services/IHttpClientService.cs:57 | the status code can be read back from the message, whatever the reason phrase and url |
| HttpService.BadRequestMessage | test/unit/StarCitizenAPIWrapper.Library.Tests/Services/IHttpServiceTests.cs:79 | a 400 "Bad Request" response for "url" fails with exactly "Status Code: 400 - Reason Phrase: Bad Request : URL: url" |
| ClientTransforms.SizeTransform | src/StarCitizenAPIWrapper.Library/StarCitizenClient.cs:269-273 | a missing token gives Undefined; any other result is a size the token names ignoring case |
| ClientTransforms.SizeTransformIs | src/StarCitizenAPIWrapper.Library/StarCitizenClient.cs:269-273 | the size is s iff the token names s ignoring case, or s is Undefined and the token names no size |
| ClientTransforms.TypeTransform | src/StarCitizenAPIWrapper.Library/StarCitizenClient.cs:275-279 | a missing token gives Undefined; any other result is a type the token names ignoring case |
| ClientTransforms.TypeTransformIs | src/StarCitizenAPIWrapper.Library/StarCitizenClient.cs:275-279 | the type is t iff the token names t ignoring case, or t is Undefined and the token names no type |
| ClientTransforms.StripHyphens | src/StarCitizenAPIWrapper.Library/StarCitizenClient.cs:283 | the result has no hyphen and is no longer than the input |
| ClientTransforms.StripHyphensConcat | src/StarCitizenAPIWrapper.Library/StarCitizenClient.cs:283 | stripping distributes over concatenation, so the other characters keep their order |
| ClientTransforms.StripHyphensKeepsHyphenFree | src/StarCitizenAPIWrapper.Library/StarCitizenClient.cs:283 | a hyphen-free string is unchanged |
| ClientTransforms.StripHyphensIdempotent | src/StarCitizenAPIWrapper.Library/StarCitizenClient.cs:283 | stripping twice equals stripping once |
| ClientTransforms.ProductionStatusTransform | src/StarCitizenAPIWrapper.Library/StarCitizenClient.cs:281-290 | a missing token gives Undefined; any other result is the status the hyphen-free token names ignoring case |
| ClientTransforms.ProductionStatusTransformIs | src/StarCitizenAPIWrapper.Library/StarCitizenClient.cs:281-290 | the status is p iff the hyphen-free token names p ignoring case, or p is Undefined and it names none |
| ClientTransforms.InProductionToken | src/StarCitizenAPIWrapper.Library/StarCitizenClient.cs:281-290 | "in-production" becomes InProduction |
| ClientTransforms.ArchetypeTransform | src/StarCitizenAPIWrapper.Library/StarCitizenClient.cs:171-176 | a missing token gives Undefined; any other result is the archetype whose name equals the token's text exactly |
| ClientTransforms.ArchetypeTransformIs | src/StarCitizenAPIWrapper.Library/StarCitizenClient.cs:171-176 | the archetype is a iff its name equals the text case-sensitively, or a is Undefined and no name equals it |
| ClientTransforms.ArchetypeIsCaseSensitive | src/StarCitizenAPIWrapper.Library/StarCitizenClient.cs:173 | "PMC" gives PMC while "pmc" gives Undefined |
| ClientTransforms.FocusTypeOf | src/StarCitizenAPIWrapper.Library/StarCitizenClient.cs:189-193 | the result is the default BountyHunting or the focus type named exactly by the string |
| ClientTransforms.FocusTypeOfIs | src/StarCitizenAPIWrapper.Library/StarCitizenClient.cs:189-193 | the focus is f iff f's name equals the string, or f is the default and no name equals it |
| ClientTransforms.FocusTransform | src/StarCitizenAPIWrapper.Library/StarCitizenClient.cs:180-196 | succeeds iff data, focus, primary and secondary can be indexed; each image and name comes from its own sub-object; the only failure is a key access on a non-object |
| ClientTransforms.UnknownPrimaryFocusIsDefault | src/StarCitizenAPIWrapper.Library/StarCitizenClient.cs:189-190 | a primary name that names no focus type leaves PrimaryFocus at BountyHunting |
| ClientTransforms.HeadlineTransform | src/StarCitizenAPIWrapper.Library/StarCitizenClient.cs:199-206 | succeeds iff data and headline can be indexed, giving (headline.html, headline.plaintext) |
| ClientTransforms.PageTransform | src/StarCitizenAPIWrapper.Library/StarCitizenClient.cs:512-513 | succeeds iff the value can be indexed, giving (title, url) of that value |
| ClientTransforms.ReleasedTransform | src/StarCitizenAPIWrapper.Library/StarCitizenClient.cs:331 | fails with a null reference iff the token is missing; otherwise true exactly for the string "1" or the number 1 |
| ClientTransforms.EnlistedTransform | src/StarCitizenAPIWrapper.Library/StarCitizenClient.cs:516 | a missing token fails with argument-null, a malformed date fails, a well-formed date succeeds with that date; success only with the date parsed from the text |
| ClientTransforms.FluencyTransform | src/StarCitizenAPIWrapper.Library/StarCitizenClient.cs:519-523 | succeeds iff the token is an array, giving the elements' string forms in order |
| ClientTransforms.ParseShipMediaImage | src/StarCitizenAPIWrapper.Library/StarCitizenClient.cs:568-580 | a non-property fails the cast; otherwise it succeeds iff sizes and the matching size can be indexed, with the value's text as url and height, width and mode from the size whose key is the image's name |
| ClientTransforms.ParseShipMedia | src/StarCitizenAPIWrapper.Library/StarCitizenClient.cs:548-563 | succeeds iff the entry is an object, `derived_data` can be indexed, `images` is present and every image parses against `derived_data.sizes`; then source name and url come from the entry and image i is the parse of child i of `images`; a non-object is a key-access fault, a missing `images` an argument-null fault, and no other fault but a cast occurs |
| ClientTransforms.MediaTransform | src/StarCitizenAPIWrapper.Library/StarCitizenClient.cs:265-266 | a non-array fails; for an array, succeeds iff every element parses as a media entry, then holds one media per element in order, and otherwise fails with the first failing element's fault |
| ClientTransforms.ShipTransformsAreFields | src/StarCitizenAPIWrapper.Library/StarCitizenClient.cs:262-298 | the ship registry covers exactly Media, Size, Type, ProductionStatus, Compiled and Manufacturer |
| ClientTransforms.ShipFieldRoutes | src/StarCitizenAPIWrapper.Library/StarCitizenClient.cs:262-298 | ProductionStatus goes to its transform at production_status, Size at its derived key; Beam and AfterburnerSpeed take default coercion |
| ClientTransforms.OrganizationTransformsAreFields | src/StarCitizenAPIWrapper.Library/StarCitizenClient.cs:168-208 | the organization registry covers exactly Archetype, Focus and Headline |
| ClientTransforms.OrganizationFieldRoutes | src/StarCitizenAPIWrapper.Models/Organization/StarCitizenOrganization.cs:37-58 | Members, Recruiting and RolePlaying take default int/bool coercion at their derived keys; Language takes string coercion at `lang` |
| ClientTransforms.ProfileTransformsAreFields | src/StarCitizenAPIWrapper.Library/StarCitizenClient.cs:509-525 | the profile registry covers exactly Page, Enlisted and Fluency |
| ClientTransforms.ProfileFieldRoutes | src/StarCitizenAPIWrapper.Library/StarCitizenClient.cs:509-525 | Enlisted goes to its transform; BadgeImage takes string coercion at `badge_image` |
| ResponseShapes.IsNullOrEmptyText | src/StarCitizenAPIWrapper.Library/StarCitizenClient.cs:400 | `IsNullOrEmpty(data?.ToString())` holds exactly for no token, JSON null and the empty string |
| ResponseShapes.ArrayOrSingle | src/StarCitizenAPIWrapper.Library/StarCitizenClient.cs:380-383 | an array is parsed element by element, anything else (a missing `data` included) as one item; the list is built iff every item parses, holds each item's parse in order, and a failure is the first failing item's |
| ResponseShapes.EmptyOrArrayOrSingle | src/StarCitizenAPIWrapper.Library/StarCitizenClient.cs:400-415 | null or empty `data` gives the empty list without parsing; otherwise the array-or-single rule, with the same success iff, per-item results and first failure |
| ResponseShapes.KeptEntries | src/StarCitizenAPIWrapper.Library/StarCitizenClient.cs:304-308 | the entries kept are never more than the input |
| ResponseShapes.KeptEntriesMembers | src/StarCitizenAPIWrapper.Library/StarCitizenClient.cs:304-308 | an entry is kept iff it is in the input and is neither JSON null nor the empty string |
| ResponseShapes.KeptEntriesConcat | src/StarCitizenAPIWrapper.Library/StarCitizenClient.cs:304-308 | filtering distributes over concatenation: input order is kept |
| ResponseShapes.KeptEntriesAllNonEmpty | src/StarCitizenAPIWrapper.Library/StarCitizenClient.cs:304-308 | with no empty entries nothing is dropped |
| ResponseShapes.GetShips | src/StarCitizenAPIWrapper.Library/StarCitizenClient.cs:300-315 | non-array `data` is a null reference; otherwise the loop succeeds iff every kept entry parses, giving one ship per kept entry in order, and a failing parse ends it with that entry's fault |
| ResponseShapes.ShipFailureEndsList | src/StarCitizenAPIWrapper.Library/StarCitizenClient.cs:304-312 | once a kept entry has failed to parse, the entries after it do not change the outcome |
| ResponseShapes.ShipStep | src/StarCitizenAPIWrapper.Library/StarCitizenClient.cs:304-312 | one turn of the loop: an entry whose string form is empty leaves the list as it was; any other entry whose parse succeeds appends that parse |
| ResponseShapes.ShipFailureAt | src/StarCitizenAPIWrapper.Library/StarCitizenClient.cs:304-312 | a non-empty entry whose parse fails, after entries that all parsed, is the outcome of the whole list |
| ResponseShapes.SelectArray | src/StarCitizenAPIWrapper.Library/StarCitizenClient.cs:335-338 | a non-array fails with argument-null; an array succeeds iff every element parses, giving each element's parse in order, and otherwise fails with the first failing element's fault |
| ShipCompiled.ParseComponent | src/StarCitizenAPIWrapper.Library/StarCitizenClient.cs:629-643 | succeeds iff the component is an object with `mounts` and `quantity`; a non-object fails the key access, a missing count is a null reference; every field comes from its key: name, component_class, details, manufacturer, size and type as optional texts, mounts and quantity through the integer coercion |
| ShipCompiled.TypeComponentsParsed | src/StarCitizenAPIWrapper.Library/StarCitizenClient.cs:627-646 | a type's list is built iff every component parses, and then holds each component's parse, in order |
| ShipCompiled.TypeComponentsKeys | src/StarCitizenAPIWrapper.Library/StarCitizenClient.cs:645 | one pair per component, each keyed by the enclosing type's name |
| ShipCompiled.ComponentsOfStopsAtFailure | src/StarCitizenAPIWrapper.Library/StarCitizenClient.cs:621-647 | a failure in a prefix of the types is the failure of the whole |
| ShipCompiled.TypeComponentsStopsAtFailure | src/StarCitizenAPIWrapper.Library/StarCitizenClient.cs:627-646 | a failure in a prefix of the components is the failure of the whole |
| ShipCompiled.ComponentsSucceed | src/StarCitizenAPIWrapper.Library/StarCitizenClient.cs:616-650 | the flattened list is built iff every component type's list is built |
| ShipCompiled.ComponentsShape | src/StarCitizenAPIWrapper.Library/StarCitizenClient.cs:616-650 | on success there is one pair per listed component across all types, each keyed by a type name that was listed |
| ShipCompiled.TypeComponentsAt | src/StarCitizenAPIWrapper.Library/StarCitizenClient.cs:627-646 | on success, pair j of one type is (the type's name, the parse of its j-th component) |
| ShipCompiled.TypeEntriesAt | src/StarCitizenAPIWrapper.Library/StarCitizenClient.cs:621-646 | a type whose list is built is a property, and entry j of its list is (the type's name, the parse of its j-th component) |
| ShipCompiled.ComponentsCount | src/StarCitizenAPIWrapper.Library/StarCitizenClient.cs:621-647 | on success the flattened list holds exactly one pair per component listed across all types |
| ShipCompiled.PrefixCount | src/StarCitizenAPIWrapper.Library/StarCitizenClient.cs:621-647 | on success the types before type i also build their pairs, exactly one per component they list |
| ShipCompiled.ComponentsAt | src/StarCitizenAPIWrapper.Library/StarCitizenClient.cs:621-647 | on success, component j of type i sits at offset j after the pairs of the types before i (PrefixCount gives their number), keyed by the name of its own type: types in order, components in order within each type |
| ShipCompiled.ParseTypeComponents | src/StarCitizenAPIWrapper.Library/StarCitizenClient.cs:627-646 | the inner loop computes the type's component list |
| ShipCompiled.ParseShipComponents | src/StarCitizenAPIWrapper.Library/StarCitizenClient.cs:616-650 | the nested loops compute the flattened list, types in order and components in order within each type |
| ShipCompiled.CompiledEntry | src/StarCitizenAPIWrapper.Library/StarCitizenClient.cs:600-607 | a non-property is a null reference; a name that is no class fails; a built entry has the class named exactly by the group and the group's flattened components |
| ShipCompiled.CompiledEntryOfClass | src/StarCitizenAPIWrapper.Library/StarCitizenClient.cs:600-607 | for a property named by a class, the entry is built iff the group's components are, and a components failure is the entry's failure |
| ShipCompiled.CompiledSucceeds | src/StarCitizenAPIWrapper.Library/StarCitizenClient.cs:598-608 | the compiled list is built iff every group is, and otherwise fails with the first failing group's fault |
| ShipCompiled.CompiledStep | src/StarCitizenAPIWrapper.Library/StarCitizenClient.cs:598-608 | one loop turn: a built group extends the list by its entry, a failing group is the failure of the whole |
| ShipCompiled.CompiledOfStopsAtFailure | src/StarCitizenAPIWrapper.Library/StarCitizenClient.cs:598-608 | a failing group stops the whole transform with that failure |
| ShipCompiled.CompiledAt | src/StarCitizenAPIWrapper.Library/StarCitizenClient.cs:598-608 | on success the entry at position i is built from group i |
| ShipCompiled.CompiledShape | src/StarCitizenAPIWrapper.Library/StarCitizenClient.cs:594-611 | on success there is one entry per group, in order, each built from its group |
| ShipCompiled.UnknownGroupFails | src/StarCitizenAPIWrapper.Library/StarCitizenClient.cs:604 | any group whose name is no ShipCompiledClasses member makes the transform fail |
| ShipCompiled.ParseShipCompiled | src/StarCitizenAPIWrapper.Library/StarCitizenClient.cs:594-611 | the loop computes the compiled list; a missing token is a null reference |
| RoadmapThumbnail.UrlTableKeys | src/StarCitizenAPIWrapper.Library/StarCitizenClient.cs:678-679 | a built table's keys are exactly the children's names |
| RoadmapThumbnail.UrlTableAt | src/StarCitizenAPIWrapper.Library/StarCitizenClient.cs:678-679 | a built table maps child i's name to child i's entry |
| RoadmapThumbnail.UrlTableEntries | src/StarCitizenAPIWrapper.Library/StarCitizenClient.cs:678-679 | a built table maps every child's name to that child's entry |
| RoadmapThumbnail.UrlTableDistinct | src/StarCitizenAPIWrapper.Library/StarCitizenClient.cs:678-679 | a table is only built from property children with pairwise different names |
| RoadmapThumbnail.UrlTableBuilt | src/StarCitizenAPIWrapper.Library/StarCitizenClient.cs:678-679 | property children with pairwise different names always build a table |
| RoadmapThumbnail.UrlTableSucceeds | src/StarCitizenAPIWrapper.Library/StarCitizenClient.cs:678-679 | the table is built iff all children are properties with distinct names |
| RoadmapThumbnail.UrlTableStopsAtFailure | src/StarCitizenAPIWrapper.Library/StarCitizenClient.cs:678-679 | the first non-property or repeated name stops the loop with that failure |
| RoadmapThumbnail.ParseRoadMapCardThumbnail | src/StarCitizenAPIWrapper.Library/StarCitizenClient.cs:674-682 | the loop builds the thumbnail as written, storing each property's own string form |
| RoadmapThumbnail.ThumbnailStoresPropertyText | src/StarCitizenAPIWrapper.Library/StarCitizenClient.cs:679 | for `{"urls": {"small": "u"}}` the url stored for "small" is `"small": "u"`, not `u` |
| RoadmapThumbnail.CorrectedThumbnail | src/StarCitizenAPIWrapper.Library/StarCitizenClient.cs:676 | a corrected thumbnail comes from a card object and keeps the card's id |
| RoadmapThumbnail.CorrectedThumbnailUrls | src/StarCitizenAPIWrapper.Library/StarCitizenClient.cs:678-679 | when `urls` is an object, the corrected table maps exactly its member names, each to its value's string form |

## Left out

- Network I/O, `async`/`await`, `HttpClient` and the request itself: `Get` receives the response as a value. The duplicate src/StarCitizenAPIWrapper.Library/Helpers/IHttpClientService.cs is transport only and is not modelled.
- Request URL building with `string.Format` over configured templates: the templates are configuration that is not part of this model.
- Dependency-injection wiring (`ServiceCollectionExtension`), `StarCitizenClientConfig` and the example programs.
- `JObject.Parse`: responses are modelled as already-parsed `Json` values, and parsed objects never repeat a member name.
- `GenericJsonParser` is not part of this model. Its per-item parse (`ParseJsonIntoNewInstanceOfGivenType`), its safe coercion (`ParseValueIntoSupportedTypeSafe`, here `coerceInt`) and its default key derivation (`deriveKey`) are parameters. So are ship parsing per entry, `ParseManufacturer`, `ParseRoadmapCards`' per-card parse, and the `ParseStarmap*` parsers used per tunnel and system. Each per-item parse returns an `Outcome`, so any of them may fail.
- `GetUser` (its request and outer record), `GetOrganizationMembers`, `GetVersions`, `GetStats`, `GetObject`, `GetStarmapSystem` and `GetStarmapObjectFromName`, and the starmap object and system-detail transforms: outside the modelled core. `ParseUserProfile`'s transforms are modelled.
- Floating-point and decimal fields (Beam, Height, Price, `double.Parse`): only their declared type is kept in the field tables.
- `DateTime.Parse`: a parameter that fails on malformed input; its format rules are not modelled.
- `Enum.TryParse`/`Enum.Parse` match names only: numeric strings, comma-separated flag lists and surrounding whitespace are not modelled. Ignoring case is ASCII case folding.
- `JsonValue.Text`: containers are serialised compactly, and only quotes and backslashes are escaped. Newtonsoft's indented layout and full escaping are not modelled. The properties proved depend only on scalars and on container text being non-empty.
- `JsonValue.Text` of a date-like string: Newtonsoft's `JObject.Parse` reads ISO-date-looking strings as date tokens by default, and their `ToString()` is a culture-formatted date rather than the raw text. `Json` has no date token, so the model keeps the raw text. No property proved here depends on this, since the date parse is a parameter.
- Numbers are integers: JSON floats are not modelled.
- `ShipCompiled.TypeEntries`: a component type given as an array element, not as a property, is a failure. The code's behaviour there depends on the element's shape: a few shapes yield no components without throwing.
- Exception types are merged into `Fault` kinds: a cast, a key access on a non-object, a null dereference, a null argument, an unknown enum name, a duplicate key, a malformed date.
- `Dictionary` enumeration order: the thumbnail's url table is a `map`, so the order of insertion is not observable.
- `HttpService.GenerateGetException`: its contract states the prefix and the url suffix. The exact text is pinned by `BadRequestMessage`, and the status code by `StatusCodeRoundTrip`.
- Ships: that no two ship fields share a name is not stated. A proof over the 31 field-name literals is too costly for the solver; the organization and profile tables state it.
- `RoadmapThumbnail.CorrectedThumbnail`: its own contract states only the origin of the id; the url table is stated by `CorrectedThumbnailUrls`.

## Findings

| source | as written | input that shows it | evidently intended | confidence | as-written member | corrected member |
|---|---|---|---|---|---|---|
| src/StarCitizenAPIWrapper.Library/StarCitizenClient.cs:678-679 | each url is stored as the `JProperty`'s own string form, name included | a card `{"urls": {"small": "u"}}` stores `"small": "u"` as the url for "small" | the url is the property value's string form, as the starmap thumbnail and texture tables do at lines 753 and 847 | not executed | RoadmapThumbnail.ThumbnailStoresPropertyText | RoadmapThumbnail.CorrectedThumbnailUrls |
