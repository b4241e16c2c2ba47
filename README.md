# hypr-bench: server selection, test loops and system parsers in Dafny

hypr-bench is a Linux benchmarking command. This project models the parts
of `cmd/root.go` that decide something from data: which iperf3 servers the
network test uses and how it ranks them, the older single-server iperf3
path, the text parsers behind the system-information block, and the
sizing and argument logic of the disk and memory benchmarks.

- **netblast** (`runNetblastTests`). The pipeline reads the public server
  feed and resolves each entry to a host, a port and coordinates. It sorts
  them by distance, parses each free-form capacity and scores each
  candidate 80/20 on capacity and proximity. It builds a pool of the
  servers with at least 1.5 times the operator's bandwidth, falling back
  to the ten best. It keeps at most five servers, diversity first, and
  runs a download test on each server, then an upload test only when the
  download gave a positive speed and the server's options offer `-R`. Each
  test is retried once after a process error. Finally it sorts the results by download speed
  and numbers them 1..N. The modules are `Catalog`, `Scoring`,
  `Selection`, `Runner`, `Ranking` and `Netblast`.
- **The legacy path** (`runIperf3Tests`). It uses a wider coordinate table.
  Its capacity filter asks for twice the estimate and falls back to every
  site when fewer than three pass. It groups the sites by continent,
  chooses up to two servers on the operator's continent and one per other
  continent within 15000 km, and tests them one after another. The
  modules are `LegacySelection` and `LegacyTests`.
- **System parsers** (`SysParse`): `parseIntStrict`, `parseLscpu`,
  `parseFreeForTotal`, the unit choice of `humanReadableBytes`,
  `parseLspciForNVMe`, `parseLsblkForNVMeDetails`, the CPU core count,
  speed and cache texts, and the operating-system name.
- **Benchmarks.** `Fio` covers the FIO scenario table, the profile filter,
  the test-size parse and space check, and the fio argument vector with its
  raw-device safety flags. `MemorySize` covers the memory test sizes, and
  `Dependencies` the de-duplicated report of missing dependencies.

`GoText` and `GoNumbers` model the Go library functions the code calls:
`strings.Split`, `TrimSpace`, `Fields`, `ReplaceAll` with an empty
replacement, `Contains`, `HasPrefix` and `Join`; `strconv.Atoi`,
`ParseUint` and the decimal subset of `ParseFloat`; `%d` formatting; and
`uint64` wrap-around. `Collections` and `Sorting` hold generic facts and
the in-place sort used for `sort.Slice`.

Each subprocess is an oracle parameter: a function from the command line
to the outcome of the run. Examples are iperf3 through `runCommand` in
netblast and `bash -c` in the legacy path. The Haversine distance is a
parameter too. State that the Go code changes step by step is modelled
with imperative methods whose loops are proved against specification
functions. These are the record loops, the port scan, the selection
loops, the dedup loop, the line scanners and the in-place sorts on
arrays. Each of those functions then carries the lemmas that state what
the source promises.

## Model

| member | source | states |
|---|---|---|
| Catalog.ScanPort | cmd/root.go:3370-3390 | the port loop ends with the value read by the port rule at the first `-p` that has a following word, and with the default port otherwise |
| Catalog.PortFromFirstFlag | cmd/root.go:3370-3390 | the first `-p` with a successor decides the port; later flags are ignored |
| Catalog.PortFromNoFlag | cmd/root.go:3366-3390 | without a `-p` that has a successor, the port stays 5201 |
| Catalog.PortValueNonNegative | cmd/root.go:3372-3387 | a `-p` value never gives a negative port, because a '-' splits a range before `Atoi` sees it |
| Catalog.PortFromNonNegative | cmd/root.go:3370-3390 | every scanned port is non-negative |
| Catalog.PortValueSingle | cmd/root.go:3381-3387 | a single decimal port value is read back as that number |
| Catalog.PortValueRange | cmd/root.go:3374-3380 | a range value `a-b` yields its lower end `a`, whatever `b` is |
| Catalog.PortValueUnparsable | cmd/root.go:3372-3387 | an empty `-p` value, or one starting with neither a digit nor '+' (a word, a negative number, a range without a lower end), leaves the port at 5201 |
| Catalog.CommandRoundTrip | cmd/root.go:3359-3390 | the launch command `iperf3 -c H -p P` decodes to host H and port P (host without spaces, P within int64) |
| Catalog.HostIsFirstToken | cmd/root.go:3359-3363 | the host is the space-free first word after the `iperf3 -c ` prefix |
| Catalog.NetblastCoordinatesKnown | cmd/root.go:3397-3458 | a country resolves exactly when it is one of US, UK, GB, FR, DE, NL, SG, JP and AU; the site only refines the point |
| Catalog.SelfCoordinatesNoComma | cmd/root.go:3302-3309 | a `loc` without a comma puts the operator at (0, 0), whatever it says |
| Catalog.SelfCoordinatesParsed | cmd/root.go:3302-3309 | "lat,lon" with two readable halves gives exactly those numbers |
| Catalog.NormaliseCatalog | cmd/root.go:3356-3489 | the record loop produces exactly the normalised entries, in feed order |
| Catalog.NormaliseEntryFacts | cmd/root.go:3356-3464 | a kept record has the host and the scanned port of its launch command, keeps that command, city, country, provider, options and capacity text, and is kept exactly when the table has coordinates for it |
| Catalog.NormaliseEntryListed | cmd/root.go:3396-3464 | an entry is kept exactly when its country is listed |
| Catalog.NormalisedFromFeed | cmd/root.go:3356-3489 | every candidate is the normalisation of some feed entry |
| Catalog.NormalisedCount | cmd/root.go:3356-3489 | there is one candidate per entry from a listed country, no more and no fewer |
| Scoring.CapacityProduct | cmd/root.go:3535-3544 | "AxB" with two readable parts has capacity A*B Gbps |
| Scoring.CapacitySingle | cmd/root.go:3545-3551 | a readable plain number is its own capacity |
| Scoring.CapacityDefault | cmd/root.go:3532-3551 | unreadable capacity text counts as 1 Gbps |
| Scoring.CapacityTwoByTen | cmd/root.go:3535-3544 | "2x10" is 20 Gbps |
| Scoring.CapacityForty | cmd/root.go:3545-3551 | "40" is 40 Gbps |
| Scoring.CapacityWithUnit | cmd/root.go:3545-3551 | "10G" is not a number to `ParseFloat`, so it counts as 1 Gbps |
| Scoring.CapacityThreeParts | cmd/root.go:3535-3544 | "2x10x3" splits into three parts and counts as 1 Gbps |
| Scoring.EstimateBandwidth | cmd/root.go:3498-3507 | the estimate is the measured download when it is in (0, 10000], 1000 Mbps when it is missing or not positive, 25000 above 10000, and always in (0, 25000] |
| Scoring.ScoreBounds | cmd/root.go:3560-3574 | for a non-negative capacity, every score lies in [-20, 80] |
| Scoring.ScoreMonotone | cmd/root.go:3560-3574 | more capacity or less distance never lowers the score |
| Scoring.ScoreSaturates | cmd/root.go:3560-3570 | capacity beyond 100 Gbps and distance beyond 20000 km add nothing |
| Scoring.CapacityOutweighsProximity | cmd/root.go:3560-3574 | a 100 Gbps server 10000 km away outscores a 10 Gbps server 100 km away (70 against 7.9) |
| Scoring.ScoreAll | cmd/root.go:3530-3607 | the loop scores every candidate once, in order: each record keeps its candidate, its parsed capacity, Mbps as 1000 times that, and the 80/20 score of that capacity and the distance |
| Scoring.ScoreOne | cmd/root.go:3531-3606 | one pass of the loop body produces that candidate's scored record |
| Selection.Min | cmd/root.go:4024-4029 | `min` is the smaller of its arguments and one of them |
| Selection.Keys | cmd/root.go:3686-3693 | the identity of a selected server is its (host, port) pair, position by position |
| Selection.StrictTier | cmd/root.go:3635-3640 | the first pass keeps exactly the scored servers of at least the threshold, in order |
| Selection.BuildPool | cmd/root.go:3633-3652 | the pool is the strict tier when it holds at least five, otherwise the first min(10, n) scored servers |
| Selection.PoolFromScored | cmd/root.go:3633-3652 | the pool holds only scored servers |
| Selection.PoolSize | cmd/root.go:3643-3652 | the pool holds at least min(5, n) servers, and is empty only when nothing was scored |
| Selection.PoolTiers | cmd/root.go:3633-3652 | with five or more fast servers every pool member is fast; otherwise the pool is a prefix of the ranking of at most ten |
| Selection.StrictTierSorted | cmd/root.go:3635-3640 | the strict pass keeps the score order |
| Selection.PoolSorted | cmd/root.go:3609-3652 | the pool is in descending score order when the ranking is |
| Selection.SelectServers | cmd/root.go:3676-3740 | the head, the diversity pass, the fill pass and the cap compute the specified choice |
| Selection.DiversityPass | cmd/root.go:3676-3711 | the head and the diversity loop compute the diverse prefix |
| Selection.FillPass | cmd/root.go:3714-3735 | the fill loop appends unselected pool servers in order until five |
| Selection.IsSelected | cmd/root.go:3686-3693 | the inner loop finds a server exactly when its (host, port) pair was already chosen |
| Selection.DiversifyExtends | cmd/root.go:3683-3711 | the diversity pass only appends, and stops at five |
| Selection.DiversifyDistinct | cmd/root.go:3683-3711 | the diversity pass never picks the same host and port twice |
| Selection.DiversifyFromPool | cmd/root.go:3683-3711 | the diversity pass picks only pool servers |
| Selection.DiversifyNew | cmd/root.go:3697-3705 | each server the diversity pass adds brings a new provider or a new location |
| Selection.DiversifyMaximal | cmd/root.go:3683-3711 | when the diversity pass ends short of five, every pool server it skipped was already chosen or repeated both provider and location |
| Selection.FillExtends | cmd/root.go:3714-3735 | the fill pass only appends, and stops at five |
| Selection.FillDistinct | cmd/root.go:3714-3735 | the fill pass never adds a server already chosen |
| Selection.FillFromPool | cmd/root.go:3714-3735 | the fill pass adds only pool servers |
| Selection.FillMaximal | cmd/root.go:3714-3735 | when the fill pass ends short of five, every pool server was chosen |
| Selection.HeadFacts | cmd/root.go:3676-3681 | the head holds fewer than five servers, all from the pool and with distinct host/port pairs |
| Selection.SelectFacts | cmd/root.go:3676-3740 | the choice starts with the diverse picks and holds at most five distinct pool servers; fewer than five means every pool server was chosen |
| Selection.SelectFromPool | cmd/root.go:3676-3740 | the choice holds only pool servers, none twice |
| Selection.SelectHead | cmd/root.go:3676-3681 | a non-empty pool's best server is chosen first |
| Selection.SelectLength | cmd/root.go:3676-3740 | exactly min(5, number of distinct host/port pairs in the pool) servers are chosen |
| Selection.SelectDiverseFirst | cmd/root.go:3683-3711 | every diverse pick after the first is new in provider or location, and a diverse prefix shorter than five leaves no pool server uncovered |
| Sorting.SortDescending | cmd/root.go:3609-3611 | `sort.Slice` with a greater-than comparison leaves the slice a permutation of itself in non-increasing key order |
| Runner.TestTask | cmd/root.go:3832-3950 | a result carries its server's host, port, distance, location text and rank, and is completed exactly when both speeds are positive |
| Runner.RunServerTest | cmd/root.go:3832-3950 | the goroutine body computes the specified record and issues the specified commands |
| Runner.CommandsDistinct | cmd/root.go:3856-3941 | the download, upload and the two retry command vectors are pairwise different |
| Runner.TaskSpeeds | cmd/root.go:3856-3941 | a download speed other than -1 was read from a JSON report of a command with at least three words; an upload speed needs a positive download and `-R` |
| Runner.TaskCommands | cmd/root.go:3848-3941 | a command of fewer than three words runs nothing; otherwise the download runs first, its retry runs exactly after a process error, the upload runs exactly after a parsed positive download with `-R`, and the upload retry exactly after its process error |
| Ranking.RunAll | cmd/root.go:3826-3963 | task i reports the test of the i-th server with rank i+1 |
| Ranking.RankResults | cmd/root.go:3965-3973 | the results end sorted by descending download, ranked 1..N, and are a permutation of what was collected apart from ranks |
| Ranking.Renumber | cmd/root.go:3970-3973 | the rank loop sets rank i+1 at position i and changes nothing else |
| Ranking.RenumberedFacts | cmd/root.go:3965-3973 | renumbering keeps the order and everything but the ranks |
| Ranking.SentinelsLast | cmd/root.go:3965-3968 | a failed download (-1) is ranked after every measured one |
| Netblast.MeasuredAnyRank | cmd/root.go:3832-3950 | what a test measures does not depend on the rank it was launched with |
| Netblast.RunNetblast | cmd/root.go:3302-3973 | at most five results, none exactly when no feed entry resolved, sorted by download and ranked 1..N, each for a distinct host and port; apart from ranks the results are a permutation of the measurements of exactly the servers that the pool and the diversity-first selection choose from some best-first scoring of the resolved candidates |
| Netblast.ChooseServers | cmd/root.go:3614-3740 | the servers are the selection from the pool (1.5 times the estimate, else the top ten) of some best-first scoring of the candidates, each scored by its own capacity and distance; so at most five distinct candidates, at least one whenever there is a candidate |
| Netblast.ChosenFacts | cmd/root.go:3614-3740 | a permutation of the scored candidates yields at most five distinct candidates, at least one when there are any |
| Netblast.RankCandidates | cmd/root.go:3493-3611 | every candidate is scored once and the scores end best first |
| Netblast.ScoredFacts | cmd/root.go:3530-3611 | sorting the scored records keeps each candidate once, with its own score |
| Netblast.TestAndRank | cmd/root.go:3826-3973 | one result per tested server, ranked 1..N by download, covering exactly the servers' host/port pairs; apart from ranks a permutation of the servers' measurements |
| Netblast.TestedMeasured | cmd/root.go:3826-3950 | apart from its rank, the i-th task's record is what testing the i-th server measures |
| Netblast.Rank | cmd/root.go:3965-3973 | the collected results are sorted by download and renumbered, otherwise unchanged |
| Netblast.ResultKeys | cmd/root.go:3826-3973 | the ranked results cover exactly the tested servers' host/port pairs |
| Netblast.ServersFromCandidates | cmd/root.go:3614-3740 | every tested server is a normalised candidate |
| Netblast.ServerKeys | cmd/root.go:3676-3740 | the chosen servers' identities are those of the selection |
| Netblast.ResultsFromServers | cmd/root.go:3826-3973 | apart from its rank, each ranked result is one server's measurement |
| Netblast.TestedKeys | cmd/root.go:3836-3845 | each result reports its own server's host and port |
| Netblast.KeysIgnoreRanks | cmd/root.go:3970-3973 | renumbering keeps every host and port |
| LegacySelection.LegacyTableExtends | cmd/root.go:2657-2728 | the legacy table resolves every location the netblast table does, with the same point, and also CA, BR, IN, ZA and RU |
| LegacySelection.LegacySites | cmd/root.go:2617-2759 | the legacy record loop keeps at most one site per entry |
| LegacySelection.NormaliseLegacy | cmd/root.go:2617-2759 | the legacy record loop produces exactly the resolved sites, in feed order |
| LegacySelection.LegacyKeepsMore | cmd/root.go:2657-2728 | the legacy path keeps at least as many entries as netblast |
| LegacySelection.EstimatesAgree | cmd/root.go:2772-2776 | up to 10000 Mbps the legacy estimate is netblast's (the download when positive, else 1000 Mbps); above it netblast caps at 25000 while the legacy path keeps the download |
| LegacySelection.CapacityTierFacts | cmd/root.go:2794-2851 | the capacity filter keeps exactly the sites of at least twice the estimate, rated with their parsed capacity |
| LegacySelection.FilterByCapacity | cmd/root.go:2794-2906 | the filter computes the specified pool, falling back to every site when fewer than three pass |
| LegacySelection.CapacityFilter | cmd/root.go:2794-2851 | the filter loop builds the capacity tier |
| LegacySelection.KeepIfFast | cmd/root.go:2795-2850 | a site is appended exactly when its capacity in Mbps is at least twice the estimate |
| LegacySelection.RateAll | cmd/root.go:2854-2906 | the fall-back rates every site, in order |
| LegacySelection.LegacyPoolFacts | cmd/root.go:2794-2906 | the pool keeps at least three sites or is every site, and never invents one |
| LegacySelection.LegacyPoolSorted | cmd/root.go:2761-2906 | the pool stays in distance order |
| LegacySelection.TierSorted | cmd/root.go:2794-2851 | the capacity tier keeps the distance order |
| LegacySelection.ContinentOf | cmd/root.go:2924-2962 | every country code maps to one of the seven continent names |
| LegacySelection.TableContinents | cmd/root.go:2924-2943 | among the table's countries only RU has no continent |
| LegacySelection.Bucket | cmd/root.go:2923-2945 | a continent group holds only pool sites from that continent |
| LegacySelection.BucketComplete | cmd/root.go:2923-2945 | every pool site is in its continent's group |
| LegacySelection.BucketSorted | cmd/root.go:2923-2945 | a group keeps the distance order |
| LegacySelection.GroupByContinent | cmd/root.go:2923-2945 | the grouping loop builds exactly the continent groups |
| LegacySelection.Pick | cmd/root.go:2992-3004 | another continent contributes its nearest site exactly when that site is nearer than 15000 km |
| LegacySelection.SelectLegacy | cmd/root.go:2967-3009 | the choice loops compute the specified choice |
| LegacySelection.AwayPass | cmd/root.go:2991-3004 | the loop over the other continents appends their picks in table order |
| LegacySelection.AwayFacts | cmd/root.go:2991-3004 | each away pick is the nearest site of another continent and within 15000 km |
| LegacySelection.AwayDistinct | cmd/root.go:2991-3004 | no two away picks share a continent |
| LegacySelection.HomeFacts | cmd/root.go:2982-2989 | the home picks are the first up to two sites of the operator's continent |
| LegacySelection.LegacyChoiceFacts | cmd/root.go:2982-3009 | at most five servers: the home picks first, then at most one nearby site per other continent |
| LegacySelection.ChoiceHome | cmd/root.go:2982-2989 | the choice starts with the home picks |
| LegacySelection.ChoiceAway | cmd/root.go:2991-3009 | every later pick is an away pick |
| LegacySelection.ChoiceDistinct | cmd/root.go:2991-3009 | the later picks come from distinct continents |
| LegacySelection.LegacyChoiceEmpty | cmd/root.go:2982-3009 | the choice is empty exactly when the operator's continent has no site and no other listed continent's nearest site is within 15000 km |
| LegacyTests.LegacyTest | cmd/root.go:3123-3228 | a server whose command has fewer than three words is skipped; otherwise the record carries the server's host, port and location and is completed exactly when both speeds are positive |
| LegacyTests.LegacyResults | cmd/root.go:3080-3246 | at most one record per chosen server |
| LegacyTests.RunLegacyTests | cmd/root.go:3036-3246 | an empty choice is the error "no iperf3 servers found to test"; otherwise the loop records each server's test, in order |
| LegacyTests.TestOne | cmd/root.go:3123-3228 | the loop body computes the specified record |
| LegacyTests.LegacyTestFacts | cmd/root.go:3142-3220 | a record has no error exactly when the download and any upload gave JSON; every speed other than -1 comes from the matching report; nothing is retried |
| LegacyTests.LegacyResultsFrom | cmd/root.go:3080-3246 | every record is the test of a chosen server |
| LegacyTests.LegacyResultsCount | cmd/root.go:3123-3135 | no server is skipped when every command has three words |
| LegacyTests.RunIperf3 | cmd/root.go:2617-3246 | the outcome is exactly the test stage of the continent choice over the capacity pool of the resolved sites in some nearest-first order: the no-servers error exactly when that choice is empty, else one record per chosen server with a valid command, in choice order; at most five records, and the error whenever no entry resolved |
| LegacyTests.EmptyPool | cmd/root.go:2794-3009 | no sites give no pool and no choice |
| SysParse.RemoveUnits | cmd/root.go:4970-4977 | removing unit words never lengthens the text |
| SysParse.ParseIntStrict | cmd/root.go:4968-4992 | an accepted value is within int64 and the cleaned text starts with a digit |
| SysParse.LeadingNumber | cmd/root.go:4981-4991 | a leading digit run is read, within int64 |
| SysParse.ParseIntStrictDecimal | cmd/root.go:4968-4992 | `%d` of a number, followed by nothing or by white space and any text, is parsed back as that number |
| SysParse.ParseIntStrictDigits | cmd/root.go:4968-4992 | a cleaned text starting with a digit run ending at a blank yields that number |
| SysParse.LeadingNumberDigits | cmd/root.go:4981-4991 | the first word's digits are the value |
| SysParse.ParseIntStrictNoDigits | cmd/root.go:4968-4992 | text starting with any other character is refused |
| SysParse.CleanedDigits | cmd/root.go:4970-4978 | cleaning keeps a leading digit run and what follows it up to a blank |
| SysParse.UnitExponent | cmd/root.go:4954-4966 | the exponent of a size of at least 1024 is the e with 1024^(e+1) <= b < 1024^(e+2) |
| SysParse.ExponentUnique | cmd/root.go:4954-4966 | that exponent is unique |
| SysParse.ExponentFits | cmd/root.go:4954-4966 | for a `uint64` the exponent is at most 5 (E), so the prefix table never overflows |
| SysParse.HumanReadableBytes | cmd/root.go:4954-4966 | below 1024 the bytes are printed as they are; otherwise the value is divided by the power of 1024 of its exponent and given the matching KiB..EiB unit |
| SysParse.LscpuValue | cmd/root.go:4994-5003 | without a line starting with the key the value is "N/A" |
| SysParse.LscpuFirstLine | cmd/root.go:4994-5003 | the first line starting with the key gives the trimmed rest of that line |
| SysParse.FreeTotal | cmd/root.go:4932-4951 | there is no result exactly when no line begins with the key and has a second field that `parseIntStrict` accepts |
| SysParse.FreeFirstLine | cmd/root.go:4932-4951 | the first such line's second field, read strictly, is displayed |
| SysParse.Controllers | cmd/root.go:5057-5068 | at most one controller per line |
| SysParse.ControllersComplete | cmd/root.go:5057-5068 | every NVMe controller line is reported, trimmed |
| SysParse.ControllersSound | cmd/root.go:5057-5068 | every report is a trimmed NVMe controller line |
| SysParse.ParseLspciForNVMe | cmd/root.go:5057-5068 | the scan collects exactly the controller lines in order |
| SysParse.DeviceInfoParts | cmd/root.go:5081-5092 | three or more words give the last as size and the middle as model; two give an unknown model; one gives unknown model and size |
| SysParse.NvmeDetail | cmd/root.go:5075-5096 | a reported device has a path starting with /dev/nvme and is built from the trimmed line's words |
| SysParse.NvmeDetailExactly | cmd/root.go:5075-5096 | a line is reported exactly when its first word starts with /dev/nvme; the "nvme" filter drops none of them |
| SysParse.NvmeDetails | cmd/root.go:5070-5099 | at most one device per line |
| SysParse.NvmeDetailsExactly | cmd/root.go:5070-5099 | the devices are exactly the reported lines' records |
| SysParse.ParseLsblkForNVMeDetails | cmd/root.go:5070-5099 | the scan collects exactly the device records in order |
| SysParse.DeviceLine | cmd/root.go:5075-5096 | one pass of the loop computes that line's record |
| SysParse.DeviceRecord | cmd/root.go:5081-5092 | the record of one line's words |
| SysParse.CoreCountFacts | cmd/root.go:522-544 | cores are sockets times cores per socket when both are positive; else logical CPUs divided by threads per core (at most the CPUs); else the raw CPU text when positive; else "N/A" |
| SysParse.NoCpuLine | cmd/root.go:524-543 | without a "CPU(s):" line the logical CPU figure is missing |
| SysParse.CpuSpeedFacts | cmd/root.go:545-558 | the speed is "N/A" exactly when neither the maximum nor the current reading is known; a known maximum leads the text and hides the current reading; otherwise the current reading leads it; a known minimum is appended to a known speed and never shown alone |
| SysParse.CpuCacheFacts | cmd/root.go:560-568 | the cache is "N/A" exactly when neither the L3 nor the L2 size is known; a known L3 size hides the L2 size; the text is the size followed by " (L3)" or " (L2)" for the level it came from |
| SysParse.NoSpeedOrCacheLines | cmd/root.go:545-568 | `lscpu` output without a "CPU max MHz:" and a "CPU MHz:" line gives speed "N/A", and without an "L3 cache:" and an "L2 cache:" line gives cache "N/A" |
| SysParse.Assignment | cmd/root.go:626-631 | a line is an assignment exactly when it holds '=', and the name holds none |
| SysParse.Assign | cmd/root.go:627-631 | an assignment sets its name and leaves every other variable |
| SysParse.SettingsComplete | cmd/root.go:622-632 | every assigned name is set |
| SysParse.SettingsSound | cmd/root.go:622-632 | every set name was assigned |
| SysParse.SettingsLast | cmd/root.go:622-632 | the last assignment of a name wins |
| SysParse.AssignedVars | cmd/root.go:622-632 | a name is set exactly when some line assigns it |
| SysParse.LastAssignmentWins | cmd/root.go:622-632 | the value of a name is that of its last assignment |
| SysParse.ReadReleaseVars | cmd/root.go:622-632 | the scanner loop reads exactly those variables |
| SysParse.NameWithoutPretty | cmd/root.go:615-648 | without `lsb_release` and without a PRETTY_NAME line, the last NAME line gives the name and the last VERSION line the version |
| SysParse.NoNameLine | cmd/root.go:615-648 | without `lsb_release`, an os-release file with neither a PRETTY_NAME nor a NAME line gives "N/A" for both |
| SysParse.NameFromLsb | cmd/root.go:594-611 | the `lsb_release` name and version hold no quote, and the name no space |
| SysParse.LsbSplit | cmd/root.go:594-611 | the output is split at its first space into name and version; without a space both are the whole text |
| SysParse.OsNameVersion | cmd/root.go:594-648 | `lsb_release` output wins; without it and without /etc/os-release both fields are "N/A" |
| SysParse.PrettyNameWins | cmd/root.go:615-648 | without `lsb_release`, the last PRETTY_NAME line decides the name, with an empty version |
| Fio.KeepMember | cmd/root.go:1780-1822 | the filter keeps exactly the table rows that satisfy the profile |
| Fio.KeepAll | cmd/root.go:1780-1822 | a filter that keeps every row returns the table |
| Fio.ProfileMember | cmd/root.go:1780-1822 | a profile runs exactly the table rows it wants |
| Fio.StandardAlwaysRuns | cmd/root.go:1788-1822 | every profile but "quick" runs all standard jobs |
| Fio.WholeTable | cmd/root.go:1788-1814 | "thorough" and "all" run the whole table in order |
| Fio.UnknownProfile | cmd/root.go:1815-1822 | an unknown profile behaves like "standard" |
| Fio.TableCategories | cmd/root.go:1346-1366 | the first five rows are the standard jobs and no later row is |
| Fio.StandardOnTable | cmd/root.go:1346-1366 | "standard" runs the first five jobs |
| Fio.QuickOnTable | cmd/root.go:1780-1787 | "quick" runs 4K_RandRead_QD64 and 1M_SeqRead_QD32, in that order |
| Fio.KeepWhere | cmd/root.go:1780-1822 | the append loop computes the filter |
| Fio.SelectScenarios | cmd/root.go:1780-1822 | the profile switch computes the profile's rows |
| Fio.AvailableSpaceReads | cmd/root.go:1719-1735 | a `df` report whose second line is the decimal count n < 2^64 gives n free bytes; a one-line report gives 0 |
| Fio.TestSizeBytes | cmd/root.go:1739-1757 | an accepted size ends in G or M and is below 2^64 |
| Fio.TestSizeGiB | cmd/root.go:1740-1746 | "nG" gives n GiB modulo 2^64 |
| Fio.TestSizeWraps | cmd/root.go:1740-1746 | a multiple of 2^34 gigabytes wraps to 0 bytes |
| Fio.CheckedTestSizeBytes | cmd/root.go:1739-1757 | the checked size refuses a product of 2^64 or more |
| Fio.CheckedTestSize | cmd/root.go:1739-1757 | the checked size is n GiB or n MiB when that fits, and agrees there with the source |
| Fio.CheckedAgrees | cmd/root.go:1739-1757 | the checked size agrees with the source wherever it accepts |
| Fio.CheckSpace | cmd/root.go:1739-1766 | as written: a size that does not parse skips the target; otherwise the wrapped size fits exactly when it is at most the free space |
| Fio.CheckedSpace | cmd/root.go:1739-1766 | the corrected check: the same decision on the checked size, so a size of 2^64 bytes or more skips the target |
| Fio.SpaceCheckWraps | cmd/root.go:1739-1766 | as written, a multiple of 2^34 GiB passes the space check of any target as 0 bytes |
| Fio.CheckedSpaceRefuses | cmd/root.go:1739-1766 | the corrected check skips a size of 2^64 bytes or more whatever the free space, and decides every smaller size as written |
| Fio.DirectDeviceSizes | cmd/root.go:1696-1702 | on a raw device, assumed to have 10 GiB, every size from 1G to 10G fits |
| Fio.NoSafetyFlagsElsewhere | cmd/root.go:1861-1896 | no common or mix argument is "--readonly" or "--offset=1G" |
| Fio.SafetyFlags | cmd/root.go:1877-1892 | "--readonly" is passed exactly on a raw device without "write" in `rw`, and "--offset=1G" exactly on one with it |
| Fio.FioArgsLayout | cmd/root.go:1861-1896 | the common arguments come first with the size, then the safety flags, then "--rwmixread" exactly for a mixed job |
| Fio.MixedJobReadOnly | cmd/root.go:1877-1892 | the table's mixed 70/30 job "randrw" is opened read-only on a raw device |
| Fio.CheckedSafetyFlags | cmd/root.go:1877-1892 | with the writing modes recognised, "--readonly" goes exactly to non-writing jobs on a raw device |
| Fio.MixedJobWrites | cmd/root.go:1877-1892 | with the writing modes recognised, the mixed job is confined to the write region and not opened read-only |
| MemorySize.TotalMemBytes | cmd/root.go:1141-1153 | a missing or unreadable MemTotal gives 0, and any value is below 2^64 |
| MemorySize.TotalMemExact | cmd/root.go:1141-1153 | a MemTotal below 16 EiB is read exactly as kB times 1024 |
| MemorySize.QuarterOfMemory | cmd/root.go:1155-1160 | the test buffer is a quarter of the memory, rounded down, or 1 GiB when the memory is unknown |
| MemorySize.SysbenchSize | cmd/root.go:1155-1168 | the sysbench size is at least 100 MiB, is the whole MiB of the quarter above that, and is 1024 MiB when the memory is unknown |
| MemorySize.DirectTestBytes | cmd/root.go:1218-1230 | the direct buffer lies in [100 MiB, 4 GiB], is the quarter whenever that does, and is 1 GiB when the memory is unknown |
| MemorySize.SizesMonotone | cmd/root.go:1155-1230 | more memory never gives a smaller test |
| Dependencies.FirstOccurrencesFacts | cmd/root.go:4800-4807 | the report holds exactly the missing packages, none twice |
| Dependencies.FirstOccurrencesOfUnique | cmd/root.go:4800-4807 | a list without repeats is reported as it is |
| Dependencies.FirstOccurrencesIdempotent | cmd/root.go:4800-4807 | removing repeats twice is removing them once |
| Dependencies.FirstOccurrencesPrefix | cmd/root.go:4800-4807 | packages are reported in the order they were first listed |
| Dependencies.RemoveDuplicates | cmd/root.go:4800-4807 | the loop with the seen-set computes the first occurrences |
| Dependencies.MissingError | cmd/root.go:4798-4808 | there is an error exactly when something is still missing |

## Left out

- Network and process I/O is left out: fetching the server feed, the IP location, `curl`, and running iperf3, `lsb_release`, `lscpu`, `free`, `lspci`, `lsblk`, `df` and `fio`. Their outputs are inputs or oracle parameters, and the JSON decoding of the feed and of iperf3 reports is taken as decoded.
- The Haversine distance is a parameter `(Coord, Coord) -> nat`. Its floating-point formula and the `int` truncation are not modelled.
- Goroutines, the wait group and the results channel are modelled as a sequential loop. Only the arrival order is lost, and the results are sorted before use.
- Scoring.ScoreBounds: the lower bound -20 holds only for a non-negative capacity. The capacity text is not checked for a sign, so "-5" parses as -5 Gbps, and at 30000 km that scores -24.
- Sorting.SortDescending: `sort.Slice` is not stable and its exact permutation is unspecified. The model proves only the contract the code relies on: sorted and a permutation.
- `strconv.ParseFloat` is modelled for plain decimals with an optional exponent. Infinities, NaN, hexadecimal forms, underscores and rounding to float64 are not; reals are exact.
- Every `fmt.Printf` line is left out: progress messages and the `%.1f`/`%.0f` formatting of speeds and sizes. SysParse.HumanReadableBytes therefore returns the value and the unit rather than the formatted string. The `%d` of integers is modelled.
- `parseLsblkOutput` and the `MemTotal:` regular expression are left out. Regular expressions are not modelled, so MemorySize.TotalMemBytes takes the captured digits as input.
- The 64 KiB line limit of `bufio.Scanner` is not modelled, because the files read are short.
- The tool and package checks and the install attempts before the dependency report are left out; they are I/O. The fallback server list of `getFallbackIperf3ServerList` is also not part of this model.
- The CPU model field is a single `parseLscpu` lookup, modelled by SysParse.LscpuValue. The speed and cache fields, which combine several lookups, are modelled by SysParse.CpuSpeed and SysParse.CpuCache.
- The discovery of FIO targets (mount points and block devices), the fio run loop, the fio JSON report and the result tables are I/O and presentation, and are left out.
- Where the written description and the code differ, the code is modelled. The netblast fallback takes the top ten of the whole ranking, not of the strict tier. The legacy estimate has no 25 Gbps ceiling. A server with fewer than three command words produces no legacy record, which is what the code does.

## Findings

| source | as written | input that shows it | evidently intended | confidence | as-written member | corrected member |
|---|---|---|---|---|---|---|
| cmd/root.go:1877-1892 | a job counts as writing only when its `rw` contains "write" | the table's mixed job `rw = "randrw"` on a raw device gets `--readonly` and no `--offset=1G`, so its 30% writes are refused or, without `--readonly`, not confined to the safe region | every writing mode, including `rw` and `randrw`, gets the 64 MiB write region at 1 GiB and not `--readonly` | not executed | Fio.MixedJobReadOnly | Fio.MixedJobWrites |
| cmd/root.go:1739-1766 | the size is multiplied as `uint64`, wrapping past 2^64 | the size "17179869184G" (2^34 GiB) becomes 0 bytes and passes the space check with no free byte | a size of 2^64 bytes or more is refused like an unparsable one | not executed | Fio.SpaceCheckWraps | Fio.CheckedSpaceRefuses |
