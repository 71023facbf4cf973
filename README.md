# AegisLoop security dashboard — a Dafny model of its logic

AegisLoop is a React security dashboard that runs on mock data. It has an in-memory store of
employees and their devices, system logs, secure links, AI actions, a bot whitelist and blocked
addresses. Pages and panels read that store and change it. This project models the parts that
decide something:

- the bot-identifier validator and the whitelist form around it;
- the store and its ten mutators;
- the remediation dispatcher of the log analysis panel;
- the autonomous agent's cycle and its bounded console;
- the derived figures of the dashboard: threat count, security score, risk chart and active users;
- the risk audit, the revoke guard, the device icon and the risk bands of the employee page;
- the compromised-devices banner;
- the link panel's chart, system counts, accessing-systems list and lock toggle;
- the live log filter and the simulated log feed;
- the record the add-employee form builds;
- the session login, logout and restore;
- the seed data the store starts from.

Each source file becomes one module. The data types are in `types.dfy`, and the text helpers
(decimal rendering, lowercasing, `includes`, `trim`) are in `text.dfy`. The store is a class
with `seq` fields. Each mutator is a method whose new state is given by a function of the old
state, and the store's guarantees are lemmas about those functions.

The pages' event handlers that change state are methods on small classes holding that page's
fields. Pure views are functions with lemmas beside them.

Three kinds of value become parameters:
- random draws are `real` values in `[0, 1)`, indexed as `Math.floor(r * n)` (`Types.PickIndex`);
- every `Date.now()` is the clock reading `now`, one per handler;
- the answers of the AI classification service are inputs.

## Model

| member | source | states |
|---|---|---|
| Types.PickIndex | pages/AiAgents.tsx:24 | `Math.floor(r * n)` for a draw in [0, 1) is a valid index below `n` |
| Types.RiskLevelTextInjective | types.ts:2-7 | the four risk levels have four different texts, so comparing texts compares levels |
| Types.LogSourceTextInjective | types.ts:49 | the five log sources have five different names |
| Types.AllSystems | pages/Dashboard.tsx:63-65 | the flattened device list holds every device of every employee and nothing else |
| Types.AllSystemsAppend | pages/Dashboard.tsx:63-65 | flattening the employees of two lists is flattening each and joining the results; one employee flattens to its own devices |
| Text.Decimal | pages/AiAgents.tsx:45 | the decimal rendering of a number is canonical (no leading zero) and reads back as that number |
| Text.DecimalOfValue | contexts/DataContext.tsx:42 | reading a canonical decimal and rendering it again gives the same text |
| Text.DecimalInjective | contexts/DataContext.tsx:42 | two clock readings give the same id text exactly when they are equal |
| Text.DecimalHasOnlyDigits | pages/BotActivity.tsx:29 | a rendered number contains no dot and no slash |
| Text.Lower | pages/LiveLogs.tsx:40-41 | lowercasing keeps the length and maps each character on its own |
| Text.LowerIdempotent | pages/EmployeeRisk.tsx:36 | lowercasing twice is lowercasing once |
| Text.ContainsAt | pages/LiveLogs.tsx:40-41 | `includes` holds exactly when some position starts a copy of the searched text |
| Text.EmptyIsContained | pages/LiveLogs.tsx:39-42 | every text includes the empty text |
| Text.TrimStart | pages/BotActivity.tsx:37 | the result is a suffix of the text that does not start with white space, and everything removed before it is white space |
| Text.TrimEnd | pages/BotActivity.tsx:37 | the result is a prefix of the text that does not end with white space, and everything removed after it is white space |
| Text.Trim | pages/BotActivity.tsx:37 | the trimmed text is an infix of the text with no white space at either end, and only white space lies before and after it |
| Text.TrimKeepsUnpadded | pages/BotActivity.tsx:37 | trimming a text with no whitespace at its ends changes nothing |
| Text.TrimLeadingSpace | pages/BotActivity.tsx:37 | trimming a text preceded by one space gives the text back |
| Text.Utf16Length | pages/BotActivity.tsx:37 | `.length` counts UTF-16 code units: between one and two per character, and exactly one per character when all lie in the Basic Multilingual Plane |
| Text.Utf16LengthCountsWide | pages/BotActivity.tsx:37 | the length is the number of characters plus the number of characters above U+FFFF, each of which takes a surrogate pair |
| Identifier.Split | pages/BotActivity.tsx:22-25 | splitting on a separator gives pieces with no separator that join back to the text |
| Identifier.SplitOfJoin | pages/BotActivity.tsx:22 | joining separator-free pieces and splitting again gives the pieces back |
| Identifier.ValidateIdentifier | pages/BotActivity.tsx:20-42 | the format message exactly for an IP-shaped input that is neither an address nor a block; the length message exactly for other input shorter than 3 after trimming; otherwise accepted |
| Identifier.OctetTokenIsByte | pages/BotActivity.tsx:22 | an octet token is exactly a canonical decimal of at most 255 |
| Identifier.PrefixTokenIsLength | pages/BotActivity.tsx:25 | a prefix token is exactly a canonical decimal of at most 32 |
| Identifier.LeadingZeroRejected | pages/BotActivity.tsx:22-25 | a token of two or more digits starting with 0 is neither an octet nor a prefix |
| Identifier.ParseAddress | pages/BotActivity.tsx:22 | an address is read exactly from the texts the IPv4 expression matches |
| Identifier.ParseBlock | pages/BotActivity.tsx:25 | a block is read exactly from the texts the CIDR expression matches |
| Identifier.ParseRenderAddress | pages/BotActivity.tsx:22 | every valid address written out reads back as itself |
| Identifier.RenderParseAddress | pages/BotActivity.tsx:22 | every text the IPv4 expression matches is a valid address written out |
| Identifier.ParseRenderBlock | pages/BotActivity.tsx:25 | every valid block written out reads back as itself |
| Identifier.RenderParseBlock | pages/BotActivity.tsx:25 | every text the CIDR expression matches is a valid block written out |
| Identifier.RenderedIsIpStructure | pages/BotActivity.tsx:29 | every address and block is IP-shaped, so it reaches the format branch |
| Identifier.IpShapedAcceptance | pages/BotActivity.tsx:29-34 | an IP-shaped input is accepted exactly when it is a valid address or a valid address with a prefix of 0 to 32 |
| Identifier.ValidAddressesAccepted | pages/BotActivity.tsx:22-34 | every valid address and block is accepted |
| Identifier.FreeTextAcceptance | pages/BotActivity.tsx:35-39 | input with a character other than digit, dot or slash is accepted exactly when its trimmed length is at least 3 |
| Identifier.AcceptsZeroAddress | pages/BotActivity.tsx:22 | `0.0.0.0` is accepted |
| Identifier.AcceptsTopAddress | pages/BotActivity.tsx:22 | `255.255.255.255` is accepted |
| Identifier.AcceptsLongestPrefix | pages/BotActivity.tsx:25 | `10.0.0.0/32` is accepted |
| Identifier.UnpaddedFreeTextAccepted | pages/BotActivity.tsx:35-41 | free text of at least 3 characters with no whitespace at its ends is accepted |
| Identifier.PaddedFreeTextAccepted | pages/BotActivity.tsx:35-41 | free text with one leading space is accepted when what follows has at least 3 characters and no whitespace at its ends |
| Identifier.FormatErrorFromPieces | pages/BotActivity.tsx:31-33 | an IP-shaped input whose pieces are not four octets, and not an address plus a prefix, gets the format message |
| Identifier.RejectsOctetAbove255 | pages/BotActivity.tsx:22 | `256.1.1.1` gets the format message |
| Identifier.RejectsThreeOctets | pages/BotActivity.tsx:22 | `1.2.3` gets the format message |
| Identifier.RejectsPrefixAbove32 | pages/BotActivity.tsx:25 | `10.0.0.0/33` gets the format message |
| Identifier.RejectsLeadingZeroOctet | pages/BotActivity.tsx:22 | `01.2.3.4` gets the format message |
| Identifier.RejectsLeadingZeroPrefix | pages/BotActivity.tsx:25 | `10.0.0.0/05` gets the format message |
| Identifier.RejectsEmpty | pages/BotActivity.tsx:29-37 | the empty input is not IP-shaped and gets the length message |
| Identifier.AcceptsUserAgent | pages/BotActivity.tsx:29-37 | `Bot/1.0` is free text and accepted |
| Identifier.AcceptsPaddedAddress | pages/BotActivity.tsx:29-37 | ` 1.2.3.4` is free text because of the space, and accepted |
| Seed.SeedEmployeeIdsUnique | constants.ts:4-105 | the seed employees have distinct ids |
| Seed.SeedSystemIdsUnique | constants.ts:15-88 | the seed devices have distinct ids |
| Seed.SeedLogIdsUnique | constants.ts:108-139 | the seed logs have distinct ids |
| Seed.SeedLinkIdsUnique | constants.ts:141-221 | the seed links have distinct ids, and so do their access logs |
| Seed.SeedBotIdsUnique | constants.ts:234-251 | the seed whitelist entries have distinct ids |
| Seed.SeedInRange | constants.ts:10-96 | seed risk scores and device gauges lie in 0..100 |
| Seed.AgentIdentifierValid | constants.ts:238 | `UptimeRobot/2.0` passes the validator |
| Seed.AddressIdentifierValid | constants.ts:246 | `10.0.0.55` passes the validator |
| Seed.SeedWhitelistValid | constants.ts:234-251 | every seed whitelist identifier passes the validator |
| Seed.SeedAccessLogsResolve | constants.ts:151-219 | every seed access log names a device id, device name, address, user id and user name that belong together to one seed employee |
| Seed.MockEmployees | constants.ts:4-105 | three employees EMP-001 to EMP-003; the first two Active, the third Under Review |
| Seed.MockLogs | constants.ts:108-139 | three logs at levels Medium, Low and Critical, stamped now, five minutes ago and fifteen minutes ago |
| Seed.MockLinks | constants.ts:141-221 | two Active links with two and three access records |
| Seed.MockAiActions | constants.ts:223-232 | one Completed action stamped two hours ago |
| Seed.MockBotWhitelist | constants.ts:234-251 | two entries: the External agent `UptimeRobot/2.0`, then the Internal address `10.0.0.55` |
| Store.WithRiskScore | contexts/DataContext.tsx:47-49 | same length and order; exactly the records with the id get the new score and nothing else of theirs changes |
| Store.WithEmployeeStatus | contexts/DataContext.tsx:51-53 | same length and order; exactly the records with the id get the new status |
| Store.WithLinkStatus | contexts/DataContext.tsx:59-61 | same length and order; exactly the links with the id get the new status |
| Store.WithoutBot | contexts/DataContext.tsx:80-82 | an order-keeping subsequence with no entry of that id that keeps every other entry exactly as many times as it was listed |
| Store.WithBlockedIp | contexts/DataContext.tsx:84-88 | an address already listed leaves the list as it is; any other is appended at the end; a list without duplicates stays one |
| Store.WithId | contexts/DataContext.tsx:39-43 | the new employee is the given data plus the id |
| Store.NewLink | contexts/DataContext.tsx:63-72 | the new link has the form's name, url and type, no accesses, `N/A`, Active and no history |
| Store.UnknownEmployeeUnchanged | contexts/DataContext.tsx:47-53 | an id no employee has leaves the list as it was |
| Store.UnknownLinkUnchanged | contexts/DataContext.tsx:59-61 | an id no link has leaves the list as it was |
| Store.UpdatesKeepIds | contexts/DataContext.tsx:47-53 | the updates keep every id in place, so distinct ids stay distinct |
| Store.RemoveAbsentBot | contexts/DataContext.tsx:80-82 | removing an id that is not listed is a no-op |
| Store.BlockIdempotent | contexts/DataContext.tsx:84-88 | blocking an address twice is blocking it once |
| Store.DataStore.constructor | contexts/DataContext.tsx:28-33 | the store starts with the seed collections and no blocked address |
| Store.DataStore.AddLog | contexts/DataContext.tsx:35-37 | the log is prepended and nothing else changes |
| Store.DataStore.AddEmployee | contexts/DataContext.tsx:39-45 | the data with id `EMP-<now>` is prepended and nothing else changes |
| Store.DataStore.UpdateEmployeeRisk | contexts/DataContext.tsx:47-49 | the employee list becomes `WithRiskScore` of the old one |
| Store.DataStore.UpdateEmployeeStatus | contexts/DataContext.tsx:51-53 | the employee list becomes `WithEmployeeStatus` of the old one |
| Store.DataStore.AddAiAction | contexts/DataContext.tsx:55-57 | the action is prepended and nothing else changes |
| Store.DataStore.UpdateLinkStatus | contexts/DataContext.tsx:59-61 | the link list becomes `WithLinkStatus` of the old one |
| Store.DataStore.AddLink | contexts/DataContext.tsx:63-74 | `NewLink` is prepended and nothing else changes |
| Store.DataStore.AddBotToWhitelist | contexts/DataContext.tsx:76-78 | the entry is prepended and nothing else changes |
| Store.DataStore.RemoveBotFromWhitelist | contexts/DataContext.tsx:80-82 | the whitelist becomes `WithoutBot` of the old one |
| Store.DataStore.BlockIp | contexts/DataContext.tsx:84-88 | the list becomes `WithBlockedIp` of the old one and keeps having no duplicates |
| BotForm.NewBot | pages/BotActivity.tsx:76-83 | the entry has the form's name, identifier and type, `Admin User`, and the id and time of the clock reading |
| BotForm.RemovalKeepsValidated | contexts/DataContext.tsx:80-82 | removing entries keeps every identifier valid |
| BotForm.PrependKeepsValidated | pages/BotActivity.tsx:70-85 | adding an entry whose identifier passed keeps every identifier valid |
| BotForm.SeedValidated | constants.ts:234-251 | the seed whitelist holds only valid identifiers |
| BotForm.BotWhitelistForm.constructor | pages/BotActivity.tsx:11-18 | the form opens with empty name and identifier, type Internal, no error, no analysis and no analysis running |
| BotForm.BotWhitelistForm.EditIdentifier | pages/BotActivity.tsx:181-183 | typing an identifier clears the error and the previous answer |
| BotForm.BotWhitelistForm.Add | pages/BotActivity.tsx:64-89 | adds exactly one entry iff both fields are filled and the identifier passes; shows the refusal otherwise; clears the fields and the answer but keeps the type after a success; keeps the whitelist valid |
| BotForm.BotWhitelistForm.StartAnalyze | pages/BotActivity.tsx:44-55 | the classifier is called iff the identifier is filled and passes; a refusal is shown |
| BotForm.BotWhitelistForm.FinishAnalyze | pages/BotActivity.tsx:56-61 | the answer is kept and a suggested type is selected |
| Remediation.FindByName | components/LogAnalysisModal.tsx:39 | the position of the first employee with that name, or none when nobody has it |
| Remediation.Plan | components/LogAnalysisModal.tsx:32-54 | suspend iff the answer says SUSPEND_USER, the log has a user and an employee has that name (then the first one); block iff BLOCK_IP and the log has an address; acknowledge iff NONE; otherwise nothing |
| Remediation.Offered | components/LogAnalysisModal.tsx:181 | the button shows only for a threat, and never while loading or once acted on |
| Remediation.ActionText | components/LogAnalysisModal.tsx:42-52 | a remedy that has no effect records no text; a suspension text ends with the employee's name, a block text with the address, and an acknowledgement reads "No automated action required." |
| Remediation.FallbacksOfferNothing | services/geminiService.ts:25-88 | the service's fallback answers never offer a remediation |
| Remediation.SuspendsOnlyTheNamed | components/LogAnalysisModal.tsx:39-41 | with distinct ids, suspending the first employee of that name changes that record and no other |
| Remediation.AnalysisPanel.constructor | components/LogAnalysisModal.tsx:14-16 | the panel opens with no log, no analysis, nothing loading and nothing executed |
| Remediation.AnalysisPanel.CanRemediate | components/LogAnalysisModal.tsx:181 | the button shows only for an answer that calls the log a threat, and never while loading or after an action ran |
| Remediation.AnalysisPanel.Open | components/LogAnalysisModal.tsx:19-22 | opening a log starts loading and clears the executed flag |
| Remediation.AnalysisPanel.Close | components/LogAnalysisModal.tsx:27-29 | with no log the answer is dropped |
| Remediation.AnalysisPanel.AnalysisArrived | components/LogAnalysisModal.tsx:23-26 | the answer is kept and loading ends; the button then shows iff it is a threat not yet acted on |
| Remediation.AnalysisPanel.Remediate | components/LogAnalysisModal.tsx:32-67 | carries out `Plan`: only the suspension, the blocked address or nothing; one completed AI action with the log's event and the answer's assessment iff something was done; the executed flag then set |
| Agents.LastOf | pages/AiAgents.tsx:16 | `slice(-n)` is the last `n` elements, or all when fewer |
| Agents.ConsolePush | pages/AiAgents.tsx:15-17 | the new `> `-prefixed line is last, after the last 20 earlier lines (all of them when there are fewer) |
| Agents.ObservationOf | pages/AiAgents.tsx:44-50 | the observation names the chosen log and says INTERVENTION REQUIRED for a threat, SAFE otherwise |
| Agents.DecisionMatchesThreat | pages/AiAgents.tsx:48 | the decision is INTERVENTION REQUIRED iff the answer is a threat, SAFE iff it is not |
| Agents.ActionOf | pages/AiAgents.tsx:34-41 | the action has the log's event, the answer's assessment and recommendation, Completed |
| Agents.AnswerConsole | pages/AiAgents.tsx:30-33 | the console stays within 21 lines and ends with the trigger line or the analysis line, the analysis line coming just before the trigger line |
| Agents.CycleConsole | pages/AiAgents.tsx:26-33 | the console stays within 21 lines and ends with the trigger line or the analysis line |
| Agents.AgentPage.constructor | pages/AiAgents.tsx:10-12 | no observations, not processing, no cycle pending, the boot line alone |
| Agents.AgentPage.LogToConsole | pages/AiAgents.tsx:15-17 | the console becomes `ConsolePush` of the old one |
| Agents.AgentPage.CanStartCycle | pages/AiAgents.tsx:73 | the Neural Engine button is enabled exactly when no cycle is pending |
| Agents.AgentPage.StartCycle | pages/AiAgents.tsx:19-26 | nothing changes without logs; otherwise the drawn log is in the list and becomes the pending cycle, so the button is disabled, and the observing line is written |
| Agents.AgentPage.FinishCycle | pages/AiAgents.tsx:28-53 | for the log the pending cycle drew: the answer's console lines, one observation of it prepended, the AI action iff threat or confidence above 80, and no cycle pending afterwards |
| Agents.AgentPage.ProcessRandomLog | pages/AiAgents.tsx:19-54 | nothing changes without logs; otherwise the drawn log is in the list, one observation of it is prepended, one AI action is prepended iff threat or confidence above 80, and no cycle is left pending |
| Dashboard.CountLevel | pages/Dashboard.tsx:92-95 | a level's count is at most the number of logs |
| Dashboard.CountLevelIsSize | pages/Dashboard.tsx:92-95 | a level's count is the number of positions holding a log at that level |
| Dashboard.ActiveThreats | pages/Dashboard.tsx:62 | the threat count is at most the number of logs |
| Dashboard.ActiveThreatsIsSize | pages/Dashboard.tsx:62 | the threat count is the number of positions holding a High or Critical log |
| Dashboard.CountStatus | pages/Dashboard.tsx:63-65 | a status count is at most the number of devices |
| Dashboard.CountStatusIsSize | pages/Dashboard.tsx:63-65 | a status count is the number of positions holding a device with that status |
| Dashboard.CountLevelAppend | pages/Dashboard.tsx:92-95 | counts add up over concatenation |
| Dashboard.ActiveThreatsAppend | pages/Dashboard.tsx:62 | the threat count adds up over concatenation |
| Dashboard.CountStatusAppend | pages/Dashboard.tsx:63-65 | the device counts add up over concatenation |
| Dashboard.ThreatsAreHighAndCritical | pages/Dashboard.tsx:62 | the threat count is the High count plus the Critical count |
| Dashboard.LevelsPartitionLogs | pages/Dashboard.tsx:90-95 | the four level counts add up to the number of logs |
| Dashboard.StatusesPartitionDevices | pages/Dashboard.tsx:63-65 | the four device-status counts add up to the number of devices |
| Dashboard.SecurityScore | pages/Dashboard.tsx:72-75 | the score lies in 0..100 and is `100 - 5t - 15c` whenever that is not negative |
| Dashboard.ScoreMonotone | pages/Dashboard.tsx:72-75 | more threats or more compromised devices never raise the score |
| Dashboard.AddingLogNeverRaisesScore | pages/Dashboard.tsx:62-75 | adding a log never raises the score |
| Dashboard.CompromisingNeverRaisesScore | pages/Dashboard.tsx:63-75 | marking a device compromised never raises the score |
| Dashboard.OfflineFigure | pages/Dashboard.tsx:340 | online plus compromised devices never exceed all devices, and the rest are exactly the Offline and Isolating ones |
| Dashboard.ActiveUsers | pages/Dashboard.tsx:155 | the figure is at most the number of employees, and equal to it iff all are Active; it is 0 iff none is Active |
| Dashboard.ActiveUsersAppend | pages/Dashboard.tsx:155 | one employee counts one iff Active, and the figure of two lists joined is the sum of theirs, which fixes the figure of every list |
| Dashboard.LinksSummary | pages/Dashboard.tsx:359 | the summary is the first three links, or all when fewer |
| Dashboard.SliceTotalAppend | pages/Dashboard.tsx:96-101 | slice values add up over appending a slice |
| Dashboard.AddStep | pages/Dashboard.tsx:96-101 | adding one level keeps the chart sound and ordered, adds its count, and adds the level iff its count is positive |
| Dashboard.ChartFacts | pages/Dashboard.tsx:96-101 | the chart has one slice per non-zero count, in the order Low, Medium, High, Critical, totalling the counts |
| Dashboard.RiskDistribution | pages/Dashboard.tsx:90-102 | one positive slice per level that occurs, holding its count, in the fixed order, totalling the number of logs |
| Dashboard.SeedThreats | constants.ts:108-139 | exactly one seed log is a threat |
| Dashboard.SeedCompromised | constants.ts:93 | exactly one seed device is compromised |
| Dashboard.SeedScore | constants.ts:93-137 | the seed score is 80 |
| EmployeeRisk.Fluctuation | pages/EmployeeRisk.tsx:21 | the fluctuation lies in -10..9 and is the floor of `20r` minus 10 |
| EmployeeRisk.Clamp | pages/EmployeeRisk.tsx:22 | the clamped value lies in 0..100 and is the value itself when that is in range |
| EmployeeRisk.AuditedScore | pages/EmployeeRisk.tsx:21-22 | the new score lies in 0..100, within ten points of an in-range old score |
| EmployeeRisk.NewScores | pages/EmployeeRisk.tsx:20-22 | one new score per employee, in order, each in 0..100 |
| EmployeeRisk.WithScores | pages/EmployeeRisk.tsx:20-24 | every employee gets its own new score and keeps every other field |
| EmployeeRisk.AuditPrefix | pages/EmployeeRisk.tsx:20-24 | the calls of the audit loop applied to the current list keep its length |
| EmployeeRisk.Audited | pages/EmployeeRisk.tsx:23 | the audit calls change a record's score and nothing else |
| EmployeeRisk.AuditPrefixPointwise | pages/EmployeeRisk.tsx:20-24 | after `k` calls every record of the current list is updated on its own, by the calls naming its id, the last one winning |
| EmployeeRisk.AuditedOnce | pages/EmployeeRisk.tsx:20-24 | with distinct ids in the captured list, a record named at position `j` gets the `j`-th new score, and a record not named is untouched |
| EmployeeRisk.AuditOutcome | pages/EmployeeRisk.tsx:20-24 | with distinct ids the whole audit sets each named record's captured new score and leaves every other record of the current list alone |
| EmployeeRisk.AuditUpdatesEachOnce | pages/EmployeeRisk.tsx:20-24 | when the list did not change during the wait and ids are distinct, the audit updates every employee exactly once |
| EmployeeRisk.AuditSkipsNewcomers | pages/EmployeeRisk.tsx:19-25 | an employee added during the wait keeps its score while the others get their new ones |
| EmployeeRisk.RevokeHidesButton | pages/EmployeeRisk.tsx:165 | after a revoke the button is gone for that id and unchanged for everyone else |
| EmployeeRisk.SystemIcon | pages/EmployeeRisk.tsx:35-40 | phone words give the phone icon first, then server words the server icon, otherwise the laptop |
| EmployeeRisk.IconIgnoresCase | pages/EmployeeRisk.tsx:36 | the icon does not depend on the name's case |
| EmployeeRisk.RiskBand | pages/EmployeeRisk.tsx:103-109 | above 70 high, above 30 medium, otherwise low |
| EmployeeRisk.AnomalyWithinBands | pages/EmployeeRisk.tsx:103-112 | the anomaly line never shows on a low-band score and always on a high-band one |
| EmployeeRisk.BandMonotone | pages/EmployeeRisk.tsx:103 | a higher score is never in a lower band |
| EmployeeRisk.EmployeeRiskPage.constructor | pages/EmployeeRisk.tsx:13 | the page opens with no audit running and no audit snapshot |
| EmployeeRisk.EmployeeRiskPage.StartAudit | pages/EmployeeRisk.tsx:12-19 | the audit flag is set and the callback captures the employee list of the click |
| EmployeeRisk.EmployeeRiskPage.FinishAudit | pages/EmployeeRisk.tsx:19-25 | one risk update per employee of the captured list, in its order, scored from the captured score, each applied to the store's current list; with distinct captured ids each named record gets its new score and every other record is unchanged; the flag is cleared |
| EmployeeRisk.EmployeeRiskPage.Revoke | pages/EmployeeRisk.tsx:29-33 | the employee is suspended only when confirmed |
| Compromised.CompromisedOnly | components/CompromisedSystems.tsx:17 | an order-keeping subsequence of exactly the compromised devices |
| Compromised.Annotate | components/CompromisedSystems.tsx:18-23 | each device is copied with the owner's name, role and id |
| Compromised.CompromisedDevices | components/CompromisedSystems.tsx:15-24 | every listed device is compromised |
| Compromised.BannerOwners | components/CompromisedSystems.tsx:15-23 | every entry is a device of some employee and carries that employee's name, role and id |
| Compromised.Devices | components/CompromisedSystems.tsx:41 | the devices of the entries, in order |
| Compromised.DevicesAppend | components/CompromisedSystems.tsx:15 | the devices add up over concatenation |
| Compromised.CompromisedOnlyAppend | components/CompromisedSystems.tsx:15-17 | filtering commutes with concatenation |
| Compromised.BannerFollowsDeviceOrder | components/CompromisedSystems.tsx:15-18 | the banner is the compromised part of the flattened device list: employee order, then device order |
| Compromised.CompromisedOnlyCount | components/CompromisedSystems.tsx:17 | filtering keeps as many devices as the dashboard counts compromised |
| Compromised.BannerCountsCompromised | components/CompromisedSystems.tsx:15-24 | the banner's length is the number of compromised devices of all employees |
| Compromised.Plural | components/CompromisedSystems.tsx:36 | the plural ending is used iff the count is not 1 |
| Compromised.Heading | components/CompromisedSystems.tsx:26-36 | nothing is rendered iff the list is empty; otherwise the heading states the count |
| Compromised.SeedBanner | constants.ts:93 | on the seed data the banner shows one device |
| LinkDetail.ChartData | components/LinkDetailModal.tsx:18-22 | one point per access log, in reverse order |
| LinkDetail.SystemNames | components/LinkDetailModal.tsx:26 | the set of system names, no larger than the number of logs |
| LinkDetail.UniqueSystems | components/LinkDetailModal.tsx:26 | the figure is the number of distinct system names among the access records: at most the number of records, and at least 1 when there is one |
| LinkDetail.AccessRows | components/LinkDetailModal.tsx:116-118 | one row per distinct system id, each the first log with that id, covering every id |
| LinkDetail.AccessRowsInOrder | components/LinkDetailModal.tsx:116-118 | rows follow the order in which the system ids first appear in the access history, as `Array.from(new Set(...))` lists them |
| LinkDetail.Toggled | components/LinkDetailModal.tsx:194 | Active becomes Locked, anything else becomes Active |
| LinkDetail.ToggleTwice | components/LinkDetailModal.tsx:194 | two toggles restore Active and Locked links and leave a Compromised link Locked |
| LinkDetail.ToggleChangesOnlyThatLink | components/LinkDetailModal.tsx:194 | with distinct ids the toggle changes that link's status and nothing else |
| LinkDetail.ToggleLock | components/LinkDetailModal.tsx:193-196 | the store's links become the old ones with that link toggled |
| LiveLogs.FilteredLogs | pages/LiveLogs.tsx:39-42 | an order-keeping subsequence holding exactly the logs whose lowercased event or source includes the lowercased filter, each as many times as it is listed |
| LiveLogs.EmptyFilterKeepsAll | pages/LiveLogs.tsx:39-42 | the empty filter keeps every log |
| LiveLogs.FilterIgnoresCase | pages/LiveLogs.tsx:40-41 | the result does not depend on the case of the filter |
| LiveLogs.GeneratedLog | pages/LiveLogs.tsx:20-31 | event `Automated System Check`; source System, Firewall, BotDetector or Auth; never Critical; address `192.168.1.N` with N at most 254 |
| LiveLogs.LiveLogsPage.constructor | pages/LiveLogs.tsx:10-11 | empty filter, live |
| LiveLogs.LiveLogsPage.Visible | pages/LiveLogs.tsx:39-42 | the page lists, in store order, exactly the logs whose event or source includes the filter, ignoring case, each as often as the store holds it |
| LiveLogs.LiveLogsPage.SetFilter | pages/LiveLogs.tsx:10 | the filter becomes the typed text |
| LiveLogs.LiveLogsPage.ToggleLive | pages/LiveLogs.tsx:11 | the pause button flips the live flag |
| LiveLogs.LiveLogsPage.Tick | pages/LiveLogs.tsx:15-34 | nothing while paused; otherwise one generated log is prepended iff the gate draw is above 0.7 |
| AddEmployee.NewDevice | components/AddEmployeeModal.tsx:34-49 | the device has the entered address, `Workstation` for a blank name, Online, Windows 11, the zero MAC, gauges 12 and 34, zero traffic |
| AddEmployee.NewEmployeeData | components/AddEmployeeModal.tsx:27-51 | the form's name, role and department; score 0, Active, no apps; one device iff the address is filled |
| AddEmployee.NewEmployeeIsActive | components/AddEmployeeModal.tsx:32 | a new employee raises the active-user figure by one |
| AddEmployee.NewEmployeeAddsNoThreat | components/AddEmployeeModal.tsx:40 | a new employee leaves the compromised-devices banner unchanged |
| AddEmployee.Submit | components/AddEmployeeModal.tsx:20-55 | for a form whose required name, role and department are filled in, exactly the built employee is prepended to the store |
| Auth.MockUser | contexts/AuthContext.tsx:28-34 | the login record is `usr_123`, Admin User, Admin, with the entered address |
| Auth.Restored | contexts/AuthContext.tsx:17-24 | the stored record, if any, becomes the user, and loading ends |
| Auth.LoggedIn | contexts/AuthContext.tsx:26-37 | the user is the login record and the same record is stored |
| Auth.LoggedOut | contexts/AuthContext.tsx:39-42 | no user and nothing stored |
| Auth.LogoutUndoesLogin | contexts/AuthContext.tsx:26-42 | login then logout leaves no user and no record; logout is idempotent |
| Auth.LoginIdempotent | contexts/AuthContext.tsx:26-37 | logging in twice with one address is logging in once |
| Auth.LoginSurvivesReload | contexts/AuthContext.tsx:17-42 | restoring after a login gives back that user; after a logout, none |
| Auth.Session.constructor | contexts/AuthContext.tsx:14-15 | mounted with no user and loading set |
| Auth.Session.Restore | contexts/AuthContext.tsx:17-24 | the state becomes `Restored` of the old one |
| Auth.Session.Login | contexts/AuthContext.tsx:26-37 | the state becomes `LoggedIn` of the old one |
| Auth.Session.Logout | contexts/AuthContext.tsx:39-42 | the state becomes `LoggedOut` of the old one |

## Left out

- services/geminiService.ts is a call to a hosted model plus `JSON.parse`. Its answers are inputs of the steps that use them, and only its two fixed fallback answers are kept, as constants of the `Analysis` module.
- components/SystemDetailModal.tsx is random floating-point telemetry driven by timers. Its "isolate" action is `blockIp`, which `Store.DataStore.BlockIp` covers.
- Floating-point figures are not modelled: the upload and download totals, `toFixed`, the percentage bar widths and the link's traffic total. Speeds and transferred data are `real` fields that nothing computes on.
- `setTimeout` and `setInterval` are not modelled. Each timer firing is one method call: `LiveLogs.LiveLogsPage.Tick` and `EmployeeRisk.EmployeeRiskPage.FinishAudit`. The Neural Engine button's click is `Agents.AgentPage.StartCycle`, and it is offered only while no cycle is pending (`Agents.AgentPage.CanStartCycle`). The pending cycle's log is the one `Agents.AgentPage.FinishCycle` records.
- Only one clock reading is taken per handler. The source reads `Date.now()` and `new Date()` separately, and the add-employee path reads the clock both in the form and in the store. Ids made in the same millisecond coincide, as in the source.
- Seed timestamps are written relative to one instant `now`. In the source, each `new Date()` call of the constants file reads the clock separately.
- Timestamps are epoch milliseconds; ISO text and `toLocaleTimeString` formatting are not modelled. `LinkDetail.ChartData` keeps the raw timestamp as the bar's time.
- Store.DataStore.BlockIp: the source reads its `blockedIps` closure, which can be stale between renders. The model checks the current list, so the no-duplicates property assumes sequential calls.
- Concurrent analyses resolving out of order are not modelled. Each asynchronous handler is split into the step before the call and the step that receives the answer: for the agent cycle these are `Agents.AgentPage.StartCycle` and `Agents.AgentPage.FinishCycle`, and `Agents.AgentPage.ProcessRandomLog` is the two in a row, for an answer that arrives before anything else happens.
- Remediation.ActionText: the "Could not find user … to suspend." text is computed by the source but never recorded, because nothing is done in that case. The model has no text for it.
- `toLowerCase` lowers ASCII letters only. Unicode case mapping is not modelled.
- The source checks `LogEntry.user` and `LogEntry.ip` for JavaScript truthiness, modelled as present and non-empty (`Remediation.Filled`). Form fields checked with `!` are read the same way.
- The two regular expressions are modelled as "split on the separator, then each piece matches one listed alternative". This is exact because no alternative matches a dot or a slash.
- `Employee.systems` is a required list. The `|| []` guard in components/CompromisedSystems.tsx cannot fire in the model.
- `confidenceScore`, risk scores and device gauges are integers. Every seed and generated value is integral.
- Compromised.CompromisedDevices: its own contract states only that every entry is compromised. Owners, completeness and order are stated by the lemmas `Compromised.BannerOwners`, `Compromised.BannerFollowsDeviceOrder` and `Compromised.BannerCountsCompromised`, which keeps the function cheap to check.
- Dashboard.CountLevel, Dashboard.ActiveThreats and Dashboard.CountStatus: their own contracts give only the bound by the list length. The exact count, as the size of the set of matching positions, is stated by `Dashboard.CountLevelIsSize`, `Dashboard.ActiveThreatsIsSize` and `Dashboard.CountStatusIsSize`, which keeps the functions, and the many proofs that unfold them, cheap to check.
- Text.Utf16Length: its own contract gives the bounds and the Basic Multilingual Plane case. The exact code-unit count is stated by `Text.Utf16LengthCountsWide`.
- EmployeeRisk.EmployeeRiskPage.FinishAudit: the record-by-record outcome is stated for captured lists with distinct employee ids. With a repeated id the last update for that id wins; the method then states the update sequence (`EmployeeRisk.AuditPrefix`), and `EmployeeRisk.AuditPrefixPointwise` says how each record gets its score.
- The stored session is the user value itself. The `aegis_user` key and the JSON encoding and decoding are not modelled.
- `BotAnalysisResult.suggestedType` is an `Option`, mirroring the source's truthiness test on it.
- `authorizedRepos: []` is passed by components/AddEmployeeModal.tsx but is not a field of `Employee` in types.ts, so the model drops it.
- Not modelled because they only render, route or pass data through: components/AccountSettingsModal.tsx, components/Sidebar.tsx, components/Header.tsx, pages/Login.tsx, pages/SecureLinks.tsx, components/AddLinkModal.tsx (`Store.DataStore.AddLink` covers its store call) and App.tsx.
