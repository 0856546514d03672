# MSFS 2024 checklists: a verified model of the bridge server and the web front end

The system has two halves.

The **bridge server** (C#) attaches to Microsoft Flight Simulator through SimConnect. It does four jobs:

- screens the text the simulator sends;
- turns each data block into a telemetry snapshot;
- detects touchdowns, with a five-second bounce debounce, and rates them from the vertical speed;
- records a flight from takeoff to landing and fans the telemetry out to browser clients over WebSocket.

The **web front end** (React) does the rest:

- evaluates the automatic checks of checklist items against that telemetry;
- keeps the checked items, the collapsed sections and the flight route;
- derives the flown distance, progress and time en route;
- draws the route map of the logbook;
- shows landings, the pilot page, the leaderboard and the airline page;
- pairs devices through session codes over a realtime channel;
- picks the checklist and the interface language.

A daily server function scales the computer-run ("NPC") airlines to the player base.

The project has one Dafny module per source file, and they share `Common` (text and number helpers) and `TimeText` (the duration texts and readers that recover the numbers from them).

Code that changes state is modelled as classes, each method proved against a pure step function:

- the SimConnect manager, the flight tracker and the client registry;
- the airport cache, the session service and the application state;
- the announcement board and the section view.

Loops become methods with invariants: the string screens, the status tally, the route-map passes, the leaderboard insertion sort, the star row, the session-code generator and the broadcast. The properties are stated on the step functions, including:

- the debounce along any run of samples;
- the route counts;
- the round trip of a generated session code;
- the texts that read back as the durations they print;
- the scaling bounds of the NPC airlines.

Two behaviours of the code are worth knowing:

- the touchdown debounce is strict: a second landing is reported only more than five seconds after the previous one;
- a client whose send fails stays registered: the failure is only logged.

## Model

| member | source | states |
|---|---|---|
| LandingInfo.CalculateRating | bridge-server/MSFSBridge/Models/LandingInfo.cs:26-41 | the score is between 1 and 5 and the label is the one that belongs to the score |
| LandingInfo.RatingBands | bridge-server/MSFSBridge/Models/LandingInfo.cs:29-40 | the five bands of the absolute vertical speed (below 100, 200, 300, 500 ft/min, and above) and the rating of each |
| LandingInfo.RatingSymmetric | bridge-server/MSFSBridge/Models/LandingInfo.cs:29 | a climb and a sink of the same magnitude get the same rating |
| LandingInfo.RatingMonotone | bridge-server/MSFSBridge/Models/LandingInfo.cs:31-40 | a harder touchdown never scores better |
| LandingInfo.LabelsDistinct | bridge-server/MSFSBridge/Models/LandingInfo.cs:31-40 | distinct scores carry distinct labels |
| SimConnect.IsValidString | bridge-server/MSFSBridge/SimConnectManager.cs:166-175 | true exactly for present, non-blank text made only of printable ASCII (32..126) |
| SimConnect.IsValidIcao | bridge-server/MSFSBridge/SimConnectManager.cs:180-191 | true exactly for present, non-blank text whose trimmed form has 3 or 4 characters, all letters or digits |
| SimConnect.AllLettersOrDigits | bridge-server/MSFSBridge/SimConnectManager.cs:186-190 | true exactly when every character is a letter or a digit |
| SimConnect.ScreenText | bridge-server/MSFSBridge/SimConnectManager.cs:562-564 | text is kept exactly when valid, and what is kept is the trimmed text: non-empty, printable, without surrounding white space |
| SimConnect.ScreenIcao | bridge-server/MSFSBridge/SimConnectManager.cs:577 | an identifier is kept exactly when valid, and what is kept is the trimmed, upper-cased text: 3 or 4 characters, each an upper-case letter or a digit |
| SimConnect.ScreenIcaoIdempotent | bridge-server/MSFSBridge/SimConnectManager.cs:577 | screening an already screened identifier returns it unchanged |
| SimConnect.BuildSnapshot | bridge-server/MSFSBridge/SimConnectManager.cs:481-578 | connected, the pause flag as given, each switch true iff its raw value is positive, engines running iff either engine burns, APU running above 90 %, gear down iff its position is positive, the speeds, title and truncated transponder state carried over, and each text field the screened (trimmed, and for the approach airport upper-cased) raw text |
| SimConnect.DetectStep | bridge-server/MSFSBridge/SimConnectManager.cs:445-479 | a landing is reported iff the sample is an air-to-ground edge more than 5 s after the last report; it carries the previous sample's speeds, the rating of that vertical speed and the screened airport; the new state remembers the sample and the report time |
| SimConnect.DebounceAlongRun | bridge-server/MSFSBridge/SimConnectManager.cs:451-471 | along any run of samples, each reported landing is more than 5 s after the previous one, whatever the clock readings |
| SimConnect.LandingsNeedTouchdown | bridge-server/MSFSBridge/SimConnectManager.cs:451 | a run reports at most one landing per sample, and only when some sample is on the ground |
| SimConnect.FirstSampleSilent | bridge-server/MSFSBridge/SimConnectManager.cs:21-25 | the start-up state (on ground) never reports a landing on the first sample |
| SimConnect.FirstTouchdownReported | bridge-server/MSFSBridge/SimConnectManager.cs:451-471 | after start-up, an airborne sample followed by a ground sample is reported once, with the airborne vertical speed |
| SimConnect.SimConnectManager.constructor | bridge-server/MSFSBridge/SimConnectManager.cs:16-25 | disconnected and not running; detector state on ground, level, 1 G, no landing yet |
| SimConnect.SimConnectManager.Connect | bridge-server/MSFSBridge/SimConnectManager.cs:196-350 | already connected: success with no change; otherwise connected and running exactly when the session opens, and the disconnect path on failure |
| SimConnect.SimConnectManager.Disconnect | bridge-server/MSFSBridge/SimConnectManager.cs:355-372 | neither running nor connected; the detector state is kept |
| SimConnect.SimConnectManager.OnReceiveFailure | bridge-server/MSFSBridge/SimConnectManager.cs:379-400 | a receive failure while running drops both flags; otherwise nothing changes |
| SimConnect.SimConnectManager.OnRecvQuit | bridge-server/MSFSBridge/SimConnectManager.cs:409-414 | quitting the simulator drops both flags |
| SimConnect.SimConnectManager.OnRecvEvent | bridge-server/MSFSBridge/SimConnectManager.cs:421-435 | both pause events set the flag to "payload non-zero"; other events change nothing |
| SimConnect.SimConnectManager.OnRecvSimobjectData | bridge-server/MSFSBridge/SimConnectManager.cs:437-580 | the new detector state and the reported landing are those of the detector step; the published snapshot is built from the sample |
| SimConnect.SimConnectManager.DetectTouchdown | bridge-server/MSFSBridge/SimConnectManager.cs:445-479 | the touchdown part of the handler: the new detector state and the landing are those of the detector step, and the connection flags stay |
| SimConnect.SimConnectManager.Dispose | bridge-server/MSFSBridge/SimConnectManager.cs:591-598 | the first dispose disconnects, and later ones change nothing |
| Tracking.UpperOpt | bridge-server/MSFSBridge/FlightTracker.cs:54 | present exactly when the input is, and then its upper-cased form |
| Tracking.UpdateStep | bridge-server/MSFSBridge/FlightTracker.cs:71-98 | nothing changes while not tracking; otherwise the maximum altitude covers the sample, the total grows by the step distance exactly when the previous position is known (both coordinates non-zero) and the step is under 10 NM and is unchanged otherwise, and the last position becomes the sample's |
| Tracking.UpdateRunBounds | bridge-server/MSFSBridge/FlightTracker.cs:79-94 | over any run the total and the maximum never decrease, the total grows by under 10 NM per update, and while tracking the maximum covers every altitude seen |
| Tracking.UpdateRunTotal | bridge-server/MSFSBridge/FlightTracker.cs:71-98 | while tracking, a run of updates adds exactly the sum of the accepted legs of the path from the last position through the samples, and ends at the last sample's position |
| Tracking.UnknownPositionAddsNothing | bridge-server/MSFSBridge/FlightTracker.cs:86 | a previous position with a zero coordinate adds no distance |
| Tracking.FlightTracker.constructor | bridge-server/MSFSBridge/FlightTracker.cs:11-26 | not tracking, no user and no session code |
| Tracking.FlightTracker.SetUserId | bridge-server/MSFSBridge/FlightTracker.cs:35-38 | sets the user id and changes nothing else |
| Tracking.FlightTracker.SetSessionCode | bridge-server/MSFSBridge/FlightTracker.cs:43-46 | sets the session code and changes nothing else |
| Tracking.FlightTracker.StartTracking | bridge-server/MSFSBridge/FlightTracker.cs:51-66 | tracking from the sample's position and altitude with zero distance; departure time, upper-cased origin and aircraft recorded |
| Tracking.FlightTracker.Update | bridge-server/MSFSBridge/FlightTracker.cs:71-98 | the progress becomes the update step of the old progress; the departure data stays |
| Tracking.FlightTracker.StopTracking | bridge-server/MSFSBridge/FlightTracker.cs:103-129 | no log without a flight in progress; otherwise a log with the recorded departure, the upper-cased destination, the truncated duration and altitude, the total distance and the landing's figures; tracking stops |
| Tracking.FlightTracker.CancelTracking | bridge-server/MSFSBridge/FlightTracker.cs:134-138 | tracking stops and every recorded value stays |
| Hub.RemoveFirst | bridge-server/MSFSBridge/WebSocketServer.cs:63 | an absent socket leaves the list as it is; a present one is removed once |
| Hub.RemoveFirstCutsOne | bridge-server/MSFSBridge/WebSocketServer.cs:63 | the removal cuts out exactly the first occurrence and keeps every other client in place |
| Hub.Deliveries | bridge-server/MSFSBridge/WebSocketServer.cs:158-171 | a client is reached exactly when it is listed, available and its send does not fail |
| Hub.Attempts | bridge-server/MSFSBridge/WebSocketServer.cs:162 | a send is attempted exactly to the listed available clients |
| Hub.FailureIsolated | bridge-server/MSFSBridge/WebSocketServer.cs:158-171 | a failing send only removes that client from the deliveries; with no failure every attempt is delivered |
| Hub.DeliveriesAppend | bridge-server/MSFSBridge/WebSocketServer.cs:158-171 | a client added at the end of the list is delivered after all the others |
| Hub.HandleClientMessage | bridge-server/MSFSBridge/WebSocketServer.cs:177-202 | a reply only to a parsed "ping", and it is a pong; anything else, including unparseable text, is ignored |
| Hub.BridgeServer.constructor | bridge-server/MSFSBridge/WebSocketServer.cs:13-16 | no clients, not disposed |
| Hub.BridgeServer.ClientCount | bridge-server/MSFSBridge/WebSocketServer.cs:27-36 | the number of registered clients |
| Hub.BridgeServer.OnOpen | bridge-server/MSFSBridge/WebSocketServer.cs:49-57 | the socket is appended to the list |
| Hub.BridgeServer.OnClose | bridge-server/MSFSBridge/WebSocketServer.cs:59-66 | the socket's first entry is removed |
| Hub.BridgeServer.OnError | bridge-server/MSFSBridge/WebSocketServer.cs:68-75 | an error removes the socket exactly as a close does |
| Hub.BridgeServer.Stop | bridge-server/MSFSBridge/WebSocketServer.cs:97-116 | every client is closed in list order and the list is emptied |
| Hub.BridgeServer.SendToClient | bridge-server/MSFSBridge/WebSocketServer.cs:130-144 | delivered exactly when the client is available and the send does not fail |
| Hub.BridgeServer.Broadcast | bridge-server/MSFSBridge/WebSocketServer.cs:149-172 | the deliveries of the client list, in order; a failing client is skipped and the list is left untouched |
| Hub.BridgeServer.Dispose | bridge-server/MSFSBridge/WebSocketServer.cs:204-211 | the first dispose stops the server, and later ones change nothing |
| AutoCheck.Evaluate | src/hooks/useSimConnect.js:15-73 | unknown without a check, telemetry or first value; one variable: ok iff its comparison holds (relational comparisons coerce text to numbers as JavaScript does, unless both sides are text), and unknown instead of fail when optional; two variables: unknown without the second value, otherwise ok iff the first test and the second equality combine under "or"/"and" |
| AutoCheck.StringToNumberOfNat | src/hooks/useSimConnect.js:30-37 | a printed whole number reads back as that number when a comparison coerces it |
| AutoCheck.NumericTextComparesAsNumber | src/hooks/useSimConnect.js:30-37 | text holding a number compares with a number as that number, and blank text compares as 0 |
| AutoCheck.OptionalNeverFails | src/hooks/useSimConnect.js:46-49 | an optional single-variable check is never reported as failed |
| AutoCheck.OrIsWeakerThanAnd | src/hooks/useSimConnect.js:61-67 | a check that passes under "and" also passes under "or" |
| AutoCheck.CountChecked | src/hooks/useSimConnect.js:324-325 | the items that carry a check number at most the list's length |
| AutoCheck.CountStatus | src/hooks/useSimConnect.js:326-327 | the checked items evaluating to one status number at most the checked items |
| AutoCheck.TallyOf | src/hooks/useSimConnect.js:318-332 | the total is ok + fail + unknown and equals the number of items with a check; each counter is the number of checked items that evaluate to its status |
| AutoCheck.CheckAllAutoStatus | src/hooks/useSimConnect.js:318-332 | all zeros without items or telemetry; otherwise the tally of the list, whose total is ok + fail + unknown |
| AutoCheck.UncheckedItemsIgnored | src/hooks/useSimConnect.js:324 | items without a check do not change the summary |
| AutoCheck.AllOkIffOkEqualsTotal | src/hooks/useSimConnect.js:318-332 | the ok count equals the total exactly when every checked item evaluates to ok |
| Geo.GetAirportCoordinates | src/utils/geoUtils.js:155-171 | nothing for a missing or empty code; otherwise the built-in entry of the upper-cased code, else the cached one |
| Geo.LookupIgnoresCase | src/utils/geoUtils.js:157 | the lookup gives the same answer for a code and its upper-cased form |
| Geo.IsAirportKnown | src/utils/geoUtils.js:279-289 | known exactly when the upper-cased code is a key of the built-in table or of the cache |
| Geo.ResolvedIsKnown | src/utils/geoUtils.js:279-289 | every resolved code is known, and a known code fails to resolve only through a cached null |
| Geo.AirportCache.constructor | src/utils/geoUtils.js:5-12 | the cache holds what storage held |
| Geo.AirportCache.SaveToAirportCache | src/utils/geoUtils.js:15-23 | the entry of the upper-cased code is set and every other entry stays |
| Geo.SavedCoordsAreFound | src/utils/geoUtils.js:15-19 | coordinates saved for a code not in the built-in table are found afterwards, under any spelling of the code |
| Geo.StaticTableWins | src/utils/geoUtils.js:159-162 | caching a code of the built-in table never shadows its built-in entry |
| Geo.Dedup | src/utils/geoUtils.js:297 | a list without repeats holding exactly the input's values |
| Geo.DedupOfDistinct | src/utils/geoUtils.js:297 | a list without repeats is left as it is |
| Geo.DedupPrefix | src/utils/geoUtils.js:297 | de-duplicating a concatenation starts with the de-duplicated first part |
| Geo.GetKnownAirports | src/utils/geoUtils.js:295-298 | the de-duplicated concatenation of the built-in and the cached codes |
| Geo.KnownAirportsUnion | src/utils/geoUtils.js:295-298 | each code of either table appears once, and the built-in codes come first in their order |
| Geo.CalculateFlownDistance | src/utils/geoUtils.js:229-235 | nothing exactly when the origin does not resolve or a coordinate is missing; otherwise a non-negative distance |
| Geo.CalculateRouteDistance | src/utils/geoUtils.js:243-250 | nothing exactly when either airport does not resolve; otherwise a non-negative whole distance |
| FlightMap.UpperCode | src/components/FlightMap.jsx:38-39 | an endpoint is used exactly when present and non-empty, and then upper-cased |
| FlightMap.AddCode | src/components/FlightMap.jsx:38-39 | adding a code to a repeat-free list keeps it repeat-free and adds exactly that code |
| FlightMap.AirportCodes | src/components/FlightMap.jsx:37-40 | a repeat-free list of exactly the upper-cased codes some flight mentions |
| FlightMap.RouteKeyInjective | src/components/FlightMap.jsx:71-72 | codes without a dash never share a route key |
| FlightMap.BuildRoutesInvariant | src/components/FlightMap.jsx:64-89 | for resolved codes without a dash, the route table built from any flights keeps its invariant: counted, resolved, distinct pairs, complete |
| FlightMap.RoutesCountFlights | src/components/FlightMap.jsx:64-89 | for resolved codes without a dash: each route counts the qualifying flights on its undirected pair (at least one); no two routes share a pair; both endpoints resolved; every qualifying flight is on a route |
| FlightMap.DashedCodesShareARoute | src/components/FlightMap.jsx:71-86 | with dashed codes two different pairs share a key: flights "A-B" to "C" and "A" to "B-C" make one route of count 2 whose own pair has one flight |
| FlightMap.CollectAirports | src/components/FlightMap.jsx:37-40 | the loop builds the airport list of the flights |
| FlightMap.ResolveAirports | src/components/FlightMap.jsx:43-60 | the loop keeps exactly the airports whose coordinates resolve |
| FlightMap.CountRoutes | src/components/FlightMap.jsx:64-89 | the loop builds the route table of the flights |
| FlightMap.ProcessFlights | src/components/FlightMap.jsx:22-99 | no flights give no routes and no airports; otherwise the resolved airports of the flights and the routes of the table built on them |
| FlightMap.ZoomIn | src/components/FlightMap.jsx:102-104 | at most 8, never below 1 from a zoom in range, and it grows while under the cap |
| FlightMap.ZoomOut | src/components/FlightMap.jsx:106-108 | at least 1, never above 8 from a zoom in range, and it shrinks while above the floor |
| FlightMap.ZoomStaysInRange | src/components/FlightMap.jsx:102-108 | any sequence of clicks keeps the zoom in [1, 8] |
| FlightStats.GetFlightStats | src/lib/supabase.js:46-61 | nothing on a query error or missing data; otherwise the row count, the summed columns with null as 0, and an average rating whose product with the count is the rating sum (0 for no rows) |
| FlightStats.SumBounds | src/lib/supabase.js:56-60 | a column with values in [0, hi] sums into [0, hi × rows] |
| FlightStats.AverageRatingInRange | src/lib/supabase.js:58-60 | ratings on the 1..5 scale average into [0, 5] |
| FlightStats.SumAppend | src/lib/supabase.js:56-57 | summing distributes over concatenation |
| FlightStats.StatsOfConcatenation | src/lib/supabase.js:54-61 | the totals of two result sets put together are the sums of their totals |
| Session.GenerateSessionCode | src/services/sessionService.js:33-41 | four alphabet characters, a dash, four more, taken from the draws in order |
| Session.KeepCodeChars | src/services/sessionService.js:104 | only upper-case letters and digits remain, never more than the input |
| Session.NormalizeCode | src/services/sessionService.js:103-107 | eight code characters are regrouped as four, a dash and four; any other input is its upper-cased self |
| Session.NormalizeGenerated | src/services/sessionService.js:104-107 | a generated code is joined under exactly that code |
| Session.StripSessionCode | src/services/sessionService.js:104 | stripping a code of the generated shape drops just its dash |
| Session.NormalizeIdempotent | src/services/sessionService.js:103-107 | normalising twice is normalising once |
| Session.LeaveStep | src/services/sessionService.js:216-223 | no channel and no code afterwards |
| Session.JoinAsHostStep | src/services/sessionService.js:175-211 | no change without a client or when already on that code; otherwise the code and its channel |
| Session.JoinSessionStep | src/services/sessionService.js:97-142 | fails without a client; otherwise joins and returns the normalised code and its channel |
| Session.BroadcastAllowed | src/services/sessionService.js:148-156 | the route is sent exactly when a channel and a non-empty code are set |
| Session.TransitionsKeepConsistent | src/services/sessionService.js:47-223 | every transition keeps a channel together with its own code |
| Session.BroadcastNeedsSession | src/services/sessionService.js:148-156 | in a consistent state the route is sent exactly when a non-empty code is set |
| Session.EmptyJoinCannotBroadcast | src/services/sessionService.js:103-156 | joining with an empty code stores the empty code, and nothing is broadcast from that session |
| Session.JoinAsHostIdempotent | src/services/sessionService.js:185-188 | joining as host twice with the same code is joining once |
| Session.JoinMeetsHost | src/services/sessionService.js:104-117 | a device joining with a generated code lands on the host's channel |
| Session.SessionService.constructor | src/services/sessionService.js:11-13 | no channel and no code |
| Session.SessionService.LeaveSession | src/services/sessionService.js:216-223 | the leave step; an open channel is unsubscribed |
| Session.SessionService.JoinAsHost | src/services/sessionService.js:175-211 | the join-as-host step |
| Session.SessionService.JoinSession | src/services/sessionService.js:97-142 | the join step, with its returned code |
| Session.SessionService.CreateSession | src/services/sessionService.js:47-88 | fails without a client; otherwise on a fresh, well-formed code and its channel |
| Session.SessionService.BroadcastFlightRoute | src/services/sessionService.js:148-167 | sent exactly when the broadcast is allowed |
| NpcAirlines.ScaleFactor | supabase/functions/update-npc-airlines/index.ts:171-174 | in [0, 1]; zero exactly when either count is zero; one once players reach the NPC volume |
| NpcAirlines.ComputeStats | supabase/functions/update-npc-airlines/index.ts:167-182 | raw flights as listed; score is distance plus 30 per flight; flight time is 7200 s per flight |
| NpcAirlines.ScaleFactorRatio | supabase/functions/update-npc-airlines/index.ts:173 | below the cap the factor times the NPC volume is the player count |
| NpcAirlines.ScaledWithinRaw | supabase/functions/update-npc-airlines/index.ts:170-177 | over exact reals, scaled flights are the smaller of players and NPC volume; distances lie between 0 and the raw distance |
| NpcAirlines.NoPlayersNoStats | supabase/functions/update-npc-airlines/index.ts:123-182 | no players (or no count) give all-zero figures |
| NpcAirlines.ScaleFactorMonotone | supabase/functions/update-npc-airlines/index.ts:171-174 | more players never lower the factor |
| NpcAirlines.DistanceMonotone | supabase/functions/update-npc-airlines/index.ts:177 | more players never lower the scaled distance |
| NpcAirlines.MorePlayersNoSmaller | supabase/functions/update-npc-airlines/index.ts:171-182 | more players never lower any scaled figure |
| NpcAirlines.TableWellFormed | supabase/functions/update-npc-airlines/index.ts:7-108 | ten airlines under distinct codes, each with positive volume and distance |
| TimeText.JsRemRealBounds | src/components/SimFlyCorp.jsx:70 | the remainder of a non-negative time lies in [0, 3600) |
| TimeText.HoursMinutesBounds | src/components/SimFlyCorp.jsx:69-70 | whole hours and minutes below 60 naming the minute (and the hour) in which the time falls |
| TimeText.ClockRoundTrip | src/components/FlightInfo.jsx:29 | the padded "HH:MM" text reads back as its hours and minutes |
| TimeText.DurationRoundTrip | src/components/SimFlyCorp.jsx:71 | the "{h}h {m}m" text reads back as its hours and minutes |
| TimeText.HoursRoundTrip | src/components/AirlinePage.jsx:58 | the "{h}h" text reads back as its hours |
| Common.TrimToUpper | src/components/FlightInfo.jsx:71-72 | upper-casing and trimming commute |
| FlightInfo.FormatEte | src/components/FlightInfo.jsx:25-30 | "--:--" exactly for a missing or non-positive time; otherwise a clock that reads back as the minute in which the time falls |
| FlightInfo.Callsign | src/components/FlightInfo.jsx:33 | the ATC id if set, else airline followed by flight number if both are set, else nothing |
| FlightInfo.Progress | src/components/FlightInfo.jsx:36-41 | within [0, 100], and 0 without a positive total |
| FlightInfo.RemainingDistance | src/components/FlightInfo.jsx:44-48 | never negative: the total minus the flown distance, or 0 |
| FlightInfo.ProgressIsFlownShare | src/components/FlightInfo.jsx:36-41 | up to the total, the progress is exactly the flown share in percent |
| FlightInfo.ProgressFullIffNothingRemains | src/components/FlightInfo.jsx:36-48 | with a positive total, the bar is full exactly when nothing remains |
| FlightInfo.EstimatedEte | src/components/FlightInfo.jsx:51-58 | nothing without positive speed or remaining distance; otherwise a clock that reads back as the rounded minutes to go |
| FlightInfo.EteMinutesRounding | src/components/FlightInfo.jsx:54 | the rounded minutes lie within half a minute of the exact time |
| FlightInfo.HandleSave | src/components/FlightInfo.jsx:69-77 | trimmed, upper-cased codes; the parsed distance or 0; the flown distance carried over |
| FlightInfo.NormalCodeOfTrimmed | src/components/FlightInfo.jsx:71-72 | a saved code has no lower-case letter and no surrounding white space |
| FlightInfo.SaveUnchangedRoute | src/components/FlightInfo.jsx:61-77 | saving an unedited form gives the route back |
| FlightInfo.HandleSaveIdempotent | src/components/FlightInfo.jsx:69-77 | saving a saved route again changes nothing |
| App.Toggle | src/App.jsx:205-215 | membership flips for that id and for no other |
| App.ToggleTwice | src/App.jsx:205-215 | toggling twice restores the set |
| App.TogglesCommute | src/App.jsx:205-215 | toggles of two ids commute |
| App.LoadFromStorage | src/App.jsx:23-34 | the default for nothing stored or unparseable text; otherwise exactly the parsed values |
| App.ApplyGpsDistance | src/App.jsx:194-201 | afterwards the distance is within 0.5 NM of the GPS one; the route changes exactly when it was further off, and then takes the GPS value |
| App.ApplyGpsDistanceIdempotent | src/App.jsx:194-201 | a second update with the same position changes nothing |
| App.FlownDistanceUpdate | src/App.jsx:175-203 | a change only while connected with a known origin and both coordinates; it sets the GPS distance and only when that differs by over 0.5 NM |
| App.AppState.constructor | src/App.jsx:60-87 | the stored sets and route |
| App.AppState.HandleItemToggle | src/App.jsx:205-215 | the checked set is toggled at that id; the rest stays |
| App.AppState.HandleSectionToggle | src/App.jsx:221-231 | the collapsed set is toggled at that id; the rest stays |
| App.AppState.HandleResetChecklist | src/App.jsx:253-259 | once confirmed, everything is cleared and the route emptied; otherwise nothing changes |
| App.AppState.HandleResetFlight | src/App.jsx:265-269 | once confirmed, the flown distance is zeroed and the rest of the route kept |
| App.AppState.OnPositionChange | src/App.jsx:175-203 | the route becomes the flown-distance update of the old route |
| Section.CheckedCount | src/components/ChecklistSection.jsx:10 | at most the number of items |
| Section.FullCountIffAllIn | src/components/ChecklistSection.jsx:9-10 | the count is full exactly when every item is checked |
| Section.AllCheckedIffFullCount | src/components/ChecklistSection.jsx:9-10 | complete exactly when non-empty with a full count; an empty section is never complete |
| Section.NothingCheckedCountsZero | src/components/ChecklistSection.jsx:10 | nothing checked counts zero |
| Section.CollapseStep | src/components/ChecklistSection.jsx:13-18 | a toggle is requested exactly when the section has just become complete and is expanded; the memory becomes the current completion |
| Section.CollapseOncePerEdge | src/components/ChecklistSection.jsx:13-18 | over any run, the memory is the latest completion and toggles never outnumber the false-to-true edges |
| Section.SectionView.constructor | src/components/ChecklistSection.jsx:6 | the remembered completion starts false |
| Section.SectionView.AutoCollapse | src/components/ChecklistSection.jsx:9-18 | the toggle and the new memory are those of the collapse step |
| Announcements.Ticker | src/components/Announcements.jsx:64-66 | never longer than the list, and every entry is a 'ticker' or 'both' announcement of the list |
| Announcements.Banners | src/components/Announcements.jsx:67-69 | never longer than the list, and every entry is an undismissed 'banner' or 'both' announcement of the list |
| Announcements.TickerMembers | src/components/Announcements.jsx:64-66 | exactly the 'ticker' and 'both' announcements |
| Announcements.BannerMembers | src/components/Announcements.jsx:67-69 | exactly the undismissed 'banner' and 'both' announcements |
| Announcements.TickerKeepsOrder | src/components/Announcements.jsx:64-66 | the ticker of a concatenation is the concatenation of the tickers |
| Announcements.BannersKeepOrder | src/components/Announcements.jsx:67-69 | the banners of a concatenation are the concatenation of the banners |
| Announcements.GetMessage | src/components/Announcements.jsx:44-47 | German exactly when the language starts with "de", otherwise English |
| Announcements.Render | src/components/Announcements.jsx:59-69 | nothing exactly while loading or with no announcements; otherwise the ticker and the banners |
| Announcements.DismissHidesOnlyThatBanner | src/components/Announcements.jsx:49-69 | dismissing hides the banners with that id, keeps every other banner, and keeps the ticker |
| Announcements.Board.constructor | src/components/Announcements.jsx:10-20 | no announcements, the stored dismissed ids, loading |
| Announcements.Board.LoadAnnouncements | src/components/Announcements.jsx:32-42 | a successful query replaces the list; loading ends either way |
| Announcements.Board.DismissBanner | src/components/Announcements.jsx:49-57 | the id is appended to the dismissed list |
| SimFlyCorp.GetPilotRank | src/components/SimFlyCorp.jsx:115-122 | one stripe per threshold reached (25, 100, 250, 500 h), with the title of that stripe count |
| SimFlyCorp.PilotRankOf | src/components/SimFlyCorp.jsx:136 | a student without statistics, otherwise the rank of the flight time |
| SimFlyCorp.StripesMonotone | src/components/SimFlyCorp.jsx:115-122 | more flight time never means fewer stripes |
| SimFlyCorp.StarsOf | src/components/SimFlyCorp.jsx:87 | five stars, the first k full, for k in 0..5; a count outside that throws (nothing) |
| SimFlyCorp.GetRatingStars | src/components/SimFlyCorp.jsx:85-88 | dashes for no or zero rating; otherwise the star text of the rating |
| SimFlyCorp.StarsCountBack | src/components/SimFlyCorp.jsx:85-88 | for a rating of 1..5, the full stars count back to the rating |
| SimFlyCorp.RatingClass | src/components/SimFlyCorp.jsx:90-94 | good exactly from 4, ok exactly from 3 up to 4, bad below 3; a missing rating is bad |
| SimFlyCorp.RatingClassOfTouchdown | src/components/SimFlyCorp.jsx:90-94 | on a bridge rating: good below 200 ft/min, ok below 300, bad from 300 |
| SimFlyCorp.FormatDuration | src/components/SimFlyCorp.jsx:67-72 | "0h 0m" for no or zero time; otherwise text that reads back as the minute in which the time falls |
| SimFlyCorp.DurationOfSeconds | src/components/SimFlyCorp.jsx:69-71 | the duration text of a non-negative time reads back as its hours and minutes |
| SimFlyCorp.GetAchievements | src/components/SimFlyCorp.jsx:247-257 | the badges at 10 flights, 10000 NM and an average rating of 4.5; none without statistics |
| SimFlyCorp.NoButterWithoutPerfectLanding | src/components/SimFlyCorp.jsx:255 | ratings of at most 4 never earn the butter-landing badge |
| Leaderboard.SwapDown | src/components/LeaderboardPage.jsx:108-113 | two neighbours exchange places; the entries are kept |
| Leaderboard.InsertEntry | src/components/LeaderboardPage.jsx:108-113 | the first i + 1 entries end in order; the entries are a permutation; the rest stays; an ordered prefix is untouched |
| Leaderboard.SortByTab | src/components/LeaderboardPage.jsx:108-113 | ordered by the tab's key, largest first; a permutation of the input; an ordered list is left as it is |
| Leaderboard.SortedDemo | src/components/LeaderboardPage.jsx:107-115 | the demo fallback is sorted by the tab, a permutation of the demo list, and equal to it |
| Leaderboard.DemoInEveryOrder | src/components/LeaderboardPage.jsx:37-48 | the demo list is in descending order under every tab |
| Leaderboard.GetRankIcon | src/components/LeaderboardPage.jsx:132-137 | medals for places 0, 1 and 2; from place 3 on, "#" followed by a number that reads back as index + 1 |
| Leaderboard.GetRankClass | src/components/LeaderboardPage.jsx:139-144 | gold, silver, bronze for the first three places; empty otherwise |
| Leaderboard.MedalIffClass | src/components/LeaderboardPage.jsx:132-144 | a place has a colour class exactly when it has a medal |
| AirlinePage.FindIcon | src/components/AirlinePage.jsx:51 | nothing exactly when no entry has the id; otherwise an emoji listed with that id |
| AirlinePage.GetIconEmoji | src/components/AirlinePage.jsx:50-53 | the listed emoji of the id, or the plane for an unknown id |
| AirlinePage.IconIdsDistinct | src/components/AirlinePage.jsx:18-34 | fifteen icons under distinct ids |
| AirlinePage.FormatHours | src/components/AirlinePage.jsx:55-59 | "0h" for no or zero time; otherwise text that reads back as the hour in which the time falls |
| AirlinePage.WholeHours | src/components/AirlinePage.jsx:57-58 | the hours text of a non-negative time reads back as its hours, and those bound the time |
| AirlinePage.ValidateCreateFormAsWritten | src/components/AirlinePage.jsx:156-166 | name missing exactly when it is blank; accepted exactly with a name, a non-blank code and an untrimmed length of 2..4 |
| AirlinePage.OneLetterCodeAccepted | src/components/AirlinePage.jsx:162 | a one-character code followed by a space is accepted although it trims to one character |
| AirlinePage.ValidateCreateForm | src/components/AirlinePage.jsx:156-166 | name missing exactly when blank; accepted exactly with a name and a code of 2..4 characters once trimmed |
| AirlinePage.CorrectedRejectsOneLetterCode | src/components/AirlinePage.jsx:162-166 | the corrected check rejects the one-character code followed by a space |
| AirlinePage.CorrectedCheckAgreesOnTrimmedCodes | src/components/AirlinePage.jsx:162-166 | on a code without surrounding blanks the corrected check and the written one agree |
| AirlinePage.MembershipActions | src/components/AirlinePage.jsx:426-435 | "leave" exactly for a non-CEO; "delete" exactly for a CEO with at most one member |
| AirlinePage.ActionsExclusive | src/components/AirlinePage.jsx:426-435 | never both buttons, and neither for a CEO with other members |
| FlightLogView.FormatDuration | src/components/FlightLog.jsx:36-40 | for a non-negative time (null as 0), text that reads back as the minute in which the time falls |
| FlightLogView.FormatDurationAgrees | src/components/FlightLog.jsx:36-40 | the unguarded logbook text equals the pilot page's guarded one on every input |
| FlightLogView.GetRatingStars | src/components/FlightLog.jsx:53-55 | the star text of the rating, null counting as 0 |
| FlightLogView.StarsAgreeOnRatedFlights | src/components/FlightLog.jsx:53-55 | both pages print the same stars for non-zero ratings; for none or zero the logbook prints five empty stars and the pilot page dashes |
| FlightLogView.Rows | src/components/FlightLog.jsx:34-130 | nothing while closed; the loading notice exactly while open and loading; otherwise one row per flight, in order, with its time, stars and class |
| Checklists.ChecklistKey | src/hooks/useChecklist.js:46-47 | the aircraft id followed by "-career" or "-normal" |
| Checklists.KeyInjective | src/hooks/useChecklist.js:46-47 | different aircraft or modes never share a key |
| Checklists.GetChecklist | src/hooks/useChecklist.js:44-54 | the language's checklist if it has the key, else the German one, else nothing; an unknown or unset language uses the German table |
| Checklists.UnknownLanguageIsGerman | src/hooks/useChecklist.js:50-51 | a language without a table shows what German shows |
| Checklists.AircraftFlagsMatchRegistry | src/hooks/useChecklist.js:15-32 | the aircraft flags say exactly which checklists each language has |
| Checklists.FlaggedChecklistsFound | src/hooks/useChecklist.js:29-51 | every flagged checklist is found in every language |
| Language.Primary | src/i18n/index.js:22 | a dash-free prefix of the tag, ending at its first dash |
| Language.GetSavedLanguage | src/i18n/index.js:11-24 | a supported language: the stored one if supported, else the browser's primary language if supported, else German |
| Language.ChosenLanguageSticks | src/i18n/index.js:41-47 | a stored supported choice is picked again whatever the browser says |
| Language.PrimaryOfRegionalTag | src/i18n/index.js:22 | the primary part of "lang-region" is "lang" |
| Language.RegionalTagSelects | src/i18n/index.js:22-23 | with nothing stored, a regional tag of a supported language selects it |
| LandingView.RatingsEntry | src/components/LandingRating.jsx:7-13 | a style exactly for the scores 1..5 |
| LandingView.RatingFor | src/components/LandingRating.jsx:60 | the score's style, or the style of 3 for a missing or unknown score |
| LandingView.LabelsMatchBridge | src/components/LandingRating.jsx:7-13 | the front end's labels are the bridge's labels, score by score |
| LandingView.RatedLandingShowsItsLabel | src/components/LandingRating.jsx:60 | a bridge-rated landing is shown under the label it carries |
| LandingView.StarFills | src/components/LandingRating.jsx:18-32 | five stars; counting from 0, star i is filled exactly when i + 1 ≤ score |
| LandingView.StarRating | src/components/LandingRating.jsx:18-32 | the loop builds exactly the star fills |
| LandingView.FilledStarsCount | src/components/LandingRating.jsx:24 | a score of 0..5 fills exactly the first score stars |
| LandingView.LandingModal | src/components/LandingRating.jsx:58-60 | nothing without a landing; otherwise its style and star row |
| LandingView.LandingPanel | src/components/LandingRating.jsx:102-123 | nothing for an empty history; otherwise the newest landing's style and one style per landing in order |

## Left out

- Great-circle distance: the haversine trigonometry is a parameter (`DistanceFn`) that returns a non-negative real.
- Floating point is modelled as exact reals. `Math.Round` on the telemetry, the 2-decimal rounding of the logged distance and `toFixed` are not modelled. NaN is folded into the missing value where the source uses `|| 0`.
- NpcAirlines.ScaledWithinRaw: the equality of the scaled flights with the smaller of players and NPC volume holds over exact reals only. The function computes `Math.floor(rawFlights * Math.min(1.0, totalPlayerFlights / rawFlights))` in doubles, where the product can fall just below the player count: for 1200 raw flights and 55 players it gives 54. In the program the scaled flights lie between players − 1 and the smaller of players and raw flights.
- Tracking.FlightTracker.StopTracking: the logged distance is the unrounded total, not the value rounded to two decimals.
- SimConnect session plumbing is not modelled: the COM object, data definitions, the message thread and its sleep, `Join` timeouts and the event callbacks. `Connect` receives whether the session opens.
- Concurrency is not modelled: the locks around the client list, the interleaving of the message loop with the handlers, and the interleaving of the front end's asynchronous calls. Session.SessionService awaits between subscribing a channel and storing it with its code, so two of its calls can interleave there. In the model every method runs to completion before the next one starts.
- Clocks (`DateTime.Now`, `DateTime.UtcNow`) are `now` parameters in seconds since the earliest instant.
- Browser storage (`localStorage`) and JSON parsing are parameters: the stored value, and the parsed value or `None` for a throw.
- Database and network calls are not modelled: Supabase queries, realtime subscribe/send, and the remote airport lookup. Their results are parameters.
- `Math.random` is a sequence of draws in the code alphabet's range.
- The React rendering, CSS classes beyond the named ones, date and locale formatting, timers and intervals are not modelled. So are the log and console messages.
- Text is ASCII only: upper-casing, white space and `char.IsLetterOrDigit` are their ASCII restrictions.
- Leaderboard.GetRankIcon: the medal glyphs are named (`Gold`, `Silver`, `Bronze`) rather than spelled. The source's medal literals are mis-encoded text.
- Leaderboard.SortByTab: stability is not stated. The sort key order, the permutation and the "already sorted stays" property are stated.
- The leaderboard page's `formatDuration` (LeaderboardPage.jsx:125-130) is the same function as the pilot page's and is modelled once, by SimFlyCorp.FormatDuration.
- The logbook's `getRatingClass` (FlightLog.jsx:57-61) is the same function as the pilot page's and is modelled once, by SimFlyCorp.RatingClass.
- Hub.RemoveFirst: its contract states membership through the multiset. RemoveFirstCutsOne states the exact position.
- AutoCheck.Evaluate: `Number()` on text is modelled for decimal numerals with an optional sign, and blank text reads as 0. Exponents, hexadecimal, octal and binary prefixes and "Infinity" are read as NaN. Text compares with text by character code.
- FlightMap.BuildRoutesInvariant, FlightMap.RoutesCountFlights: proved only for airport codes without a dash. With dashed codes the route keys of different pairs can coincide, which FlightMap.DashedCodesShareARoute exhibits.
- Sending JSON (`BroadcastSimData`, the pong serialisation) is modelled as opaque messages. Only who receives them is modelled.

## Findings

| source | as written | input that shows it | evidently intended | confidence | as-written member | corrected member |
|---|---|---|---|---|---|---|
| src/components/AirlinePage.jsx:162-166 | the airline code's length is checked untrimmed (2..4) | the code "A " (a letter and a space) is accepted, and it trims to one character | the code has 2..4 characters once trimmed, as the error message says | medium, not executed | AirlinePage.OneLetterCodeAccepted | AirlinePage.CorrectedCheckAgreesOnTrimmedCodes |
