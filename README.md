# flowmetrics core, modelled in Dafny

flowmetrics gathers data about hip-hop artists from Spotify, MusicBrainz, Musixmatch
and three lyrics sites. It matches the same artist, release or track across the
providers and stores one cleaned document per artist in MongoDB. It also measures
the vocabulary of an artist's lyrics. This project models the logic that sits
around the provider calls:

- the name normalisation and best-match selection that line providers up (`Matching`);
- the three API clients, each with its own request shaping and pagination
  (`MusicBrainz`, `Spotify`, `Musixmatch`), plus the year-grouped release timeline
  two of them share (`Timeline`, `Sorting`);
- the rate limiters of the MusicBrainz client and the lyrics scraper, as classes over
  a simulated clock;
- the lyrics scraper's URL builders, its title clean-ups, its fallback chain over
  three sites and its per-artist batch (`LyricsScraper`);
- the lyrics cleaning pipeline and the vocabulary metrics (`Vocabulary`);
- the artist-document clean-up (`Cleanup`);
- the two artist collection scripts: search, per-artist record, new-artist
  selection and batch storage (`CollectArtists`, `GetArtistData`);
- the normaliser of MusicBrainz release-group list responses (`FixMusicBrainzModels`).

The web services, MongoDB, the clock and randomness are not modelled. A service
becomes a function from the request the client sends to the answer that comes back,
either a result or the error raised; a client call that raises returns an error
with the client's message. The database becomes a predicate "already
stored". The time and the random jitter become parameters. HTML parsing becomes
functions from a page to the elements the scraper selects in it. The NLTK tokenizer,
lemmatizer and stop-word list are parameters, and so is difflib's count of matching
characters. The pydantic records are datatypes that keep only the fields the logic
reads (`Models`). Where a client validates a payload against such a record, the
validation is a parameter that returns the record or the validation error. The
MusicBrainz searches that the matching functions call are keyed by the arguments
the search method takes (the query and the optional artist filter), not by the
parameter dictionary it builds from them; that dictionary is modelled apart
(`MusicBrainz.SearchParams`).

The model follows the code where its behaviour is easy to miss:

- The lyrics scraper pauses `rate_limit - elapsed` plus a random 0.1 to 1.0 seconds.
  So consecutive requests are spaced by more than `rate_limit`, not exactly by it.
- `get_all_artist_tracks` of the Musixmatch client can return more tracks than its
  `limit` when that limit is above 100. `Musixmatch.LargeLimitOvershoots` exhibits this.
- Both collection scripts compare MusicBrainz scores with `>` without a guard. A
  result without a score raises `TypeError`, which escapes the per-artist function and
  ends the run. The model keeps that outcome (`CollectArtists.MbPickMeaning`).
- The two scripts use different genre tests. The collection script asks for a
  hip-hop word anywhere in the joined genres; the stand-alone script asks for a
  genre equal to one. `GetArtistData.ListedIsMentioned` and
  `GetArtistData.MentionedNotListed` show that the second is strictly narrower.
- The two MusicBrainz paging loops (`get_artist_timeline` and `get_artist_info`) are
  `while True` loops that stop only at a short page or a raised error. Against a
  service that answers every offset with 100 release groups they never end. The
  model takes as a precondition a page known to end the loop (`stop`), and
  `MusicBrainz.CollectedCatalog` shows that every finite catalog has one.
- The Spotify paging loops (`get_all_artist_albums` and `get_all_album_tracks`,
  modelled by `Spotify.FetchAllArtistAlbums` and `Spotify.FetchAllAlbumTracks`) are
  `while True` loops of the same kind: against a service that answers every offset
  with items and a `next` link they never end. The model takes the same kind of
  precondition, a page after which the loop stops (`stop`).
- `search_artist_songs` returns an empty list both when no artist link is found
  and when the artist's page lists no song, so an empty result does not tell the
  two apart (`LyricsScraper.SearchArtistSongsMeaning`).

## Model

| member | source | states |
|---|---|---|
| Common.OrElse | flow_metrics/clients/musicbrainz.py:680 | `x or ""` gives the value when it is a non-empty string and the default when it is missing or empty |
| Common.Lower | flow_metrics/utils/matching.py:27 | lower-casing keeps the length and maps each character on its own |
| Common.LowerIdempotent | flow_metrics/utils/matching.py:27 | lower-cased text has no upper-case letter, and lower-casing such text changes nothing |
| Common.LowerAppend | flow_metrics/utils/matching.py:27 | lower-casing distributes over concatenation |
| Common.StripProps | flow_metrics/utils/matching.py:31 | stripped text neither starts nor ends with whitespace, and text already in that shape is unchanged |
| Common.CollapseSpaces | flow_metrics/utils/matching.py:31 | collapsing whitespace runs leaves only single plain spaces, keeps whether the text starts with whitespace, and empties only empty text |
| Common.CollapseFixpoint | flow_metrics/utils/matching.py:31 | collapsing already-collapsed text changes nothing |
| Common.StripPreservesCollapsed | flow_metrics/utils/matching.py:31 | stripping keeps text collapsed |
| Common.CollapseKeepsChars | flow_metrics/utils/matching.py:31 | collapsing brings in no character other than a space |
| Common.CollapseAndStripKeeps | flow_metrics/utils/matching.py:31 | collapsing and stripping brings in no character other than a space |
| Common.CollapseAndStripTidy | flow_metrics/utils/matching.py:31 | collapse-then-strip leaves single plain spaces and none at either end |
| Common.CollapseAndStripFixpoint | flow_metrics/utils/matching.py:31 | collapse-then-strip leaves text of that shape unchanged |
| Common.Before | flow_metrics/clients/musicbrainz.py:666 | `s.split("-")[0]` is the longest prefix of `s` without a dash, followed in `s` by a dash when it is shorter than `s` |
| Common.SplitJoin | flow_metrics/clients/musicbrainz.py:162 | joining with a one-character separator that no part contains can be undone by splitting on it |
| Common.JoinedParam | flow_metrics/clients/musicbrainz.py:161-162 | a list parameter is present exactly when the list is non-empty, and then it is the joined list |
| Common.JoinedParamRoundTrip | flow_metrics/clients/musicbrainz.py:161-162 | the service can split a joined list parameter back into exactly the caller's list |
| Common.FilterCount | flow_metrics/scripts/collect_artists.py:409-413 | filtering keeps each element that passes the test as often as the input holds it, and drops the others |
| Common.FilterSubsequence | flow_metrics/scripts/collect_artists.py:409-413 | filtering keeps the input order |
| Common.PySlicePrefix | flow_metrics/utils/matching.py:294 | `s[:k]` is a prefix of `s` of length `min(k, len(s))`, and for negative `k` it drops `-k` elements from the end |
| Common.Prepend | flow_metrics/clients/spotify.py:381 | putting items in front of a result keeps it a success, with the items first, or passes its error through; no items change nothing |
| Common.PrependTwice | flow_metrics/clients/spotify.py:381 | extending a result twice is extending it once with both lists |
| Common.MapSeq | flow_metrics/clients/spotify.py:421-428 | one output per input, in order, each the function applied to its input |
| Common.Collect | flow_metrics/utils/matching.py:294-306 | a loop that appends the present results keeps at most one per input |
| Common.CollectStep | flow_metrics/utils/matching.py:294-306 | one more input appends its result when present and nothing otherwise |
| Common.CollectInOrder | flow_metrics/utils/matching.py:294-306 | the appended results come from the inputs that have one, in input order, and none of those is skipped |
| Common.FirstFailureStep | flow_metrics/utils/matching.py:200-233 | the first failure of a longer prefix is the earlier one, or else that of the new element |
| Common.FirstFailureSticky | flow_metrics/utils/matching.py:200-233 | once a prefix has failed, longer prefixes fail with the same error |
| Common.FirstFailureAt | flow_metrics/utils/matching.py:200-233 | an element that fails after a prefix without failure decides the error of the whole list |
| Common.FirstFailureNext | flow_metrics/utils/matching.py:200-233 | an element that does not fail after a prefix without failure leaves the longer prefix without failure |
| Common.FirstFailureMeaning | flow_metrics/utils/matching.py:200-233 | no failure exactly when no element fails; otherwise the error of an element before which none fails |
| Common.LexLeRefl | flow_metrics/clients/musicbrainz.py:676 | the string order `sorted` uses is reflexive |
| Common.LexLeTotal | flow_metrics/clients/musicbrainz.py:676 | that order is total |
| Common.LexLeTrans | flow_metrics/clients/musicbrainz.py:676 | that order is transitive |
| Common.LexLeAntisym | flow_metrics/clients/musicbrainz.py:676 | that order is antisymmetric |
| Sorting.InOrderRefl | cleanup_artists.py:95-99 | the key order `sorted` uses, ascending or reversed, is reflexive |
| Sorting.InOrderTotal | cleanup_artists.py:95-99 | that order is total |
| Sorting.InOrderTrans | cleanup_artists.py:95-99 | that order is transitive |
| Sorting.SortBy | cleanup_artists.py:95-99 | `sorted` keeps the number of elements; its order, permutation and stability are stated by the lemmas below |
| Sorting.KeyFilter | cleanup_artists.py:95-99 | the elements with one key, in input order, are no more than the input and all carry that key |
| Sorting.InsertPermutes | cleanup_artists.py:95-99 | inserting one element adds exactly that element |
| Sorting.InsertBound | cleanup_artists.py:95-99 | inserting an element no earlier than a bound into a list no earlier than it keeps the list no earlier than the bound |
| Sorting.InsertSorted | cleanup_artists.py:95-99 | inserting into a sorted list keeps it sorted |
| Sorting.InsertStable | cleanup_artists.py:95-99 | an inserted element lands in front of every element with the same key |
| Sorting.SortByPermutes | cleanup_artists.py:95-99 | `sorted` returns a rearrangement of its input |
| Sorting.SortBySorted | cleanup_artists.py:95-99 | the output of `sorted` is ordered by the key, newest first when reversed |
| Sorting.SortByStable | cleanup_artists.py:95-99 | `sorted` is stable: elements sharing a key keep their input order, also when reversed |
| Timeline.YearOf | flow_metrics/clients/musicbrainz.py:666 | the year is a prefix of the date and holds no dash |
| Timeline.Grouped | flow_metrics/clients/musicbrainz.py:661-671 | a year's list is no longer than the input |
| Timeline.GroupByYear | flow_metrics/clients/musicbrainz.py:659-671 | the dictionary has a key for exactly the years met, in the order they are first met, and each holds the kept items of that year in input order |
| Timeline.TimelineOf | flow_metrics/clients/musicbrainz.py:658-684 | one entry per year met, in ascending order, each the sorted items of that year; see `Timeline.TimelineItems` and `Timeline.TimelineHasYear` |
| Timeline.GroupedStep | flow_metrics/clients/musicbrainz.py:661-671 | one more item adds itself to its own year only, and adds that year at the end when it is new |
| Timeline.Build | flow_metrics/clients/musicbrainz.py:658-684 | the two passes build the timeline the specification function describes |
| Timeline.SortEach | flow_metrics/clients/musicbrainz.py:676-682 | the sorting pass gives each listed year its list sorted by date, in year order |
| Timeline.GroupedEmpty | flow_metrics/clients/musicbrainz.py:661-671 | a year never met has no items |
| Timeline.FirstSeenYearsMembers | flow_metrics/clients/musicbrainz.py:661-671 | a year is listed exactly when some kept item falls in it |
| Timeline.FirstSeenYearsDistinct | flow_metrics/clients/musicbrainz.py:668-669 | no year is listed twice |
| Timeline.GroupedCount | flow_metrics/clients/musicbrainz.py:661-671 | a year's list holds every kept item of that year as often as the input does, and nothing else |
| Timeline.TimelineYearsAscending | flow_metrics/clients/musicbrainz.py:676 | the years of the timeline are strictly ascending |
| Timeline.TimelineHasYear | flow_metrics/clients/musicbrainz.py:658-684 | a year appears in the timeline exactly when some kept item carries it |
| Timeline.TimelineItems | flow_metrics/clients/musicbrainz.py:676-682 | each year's list is a permutation of that year's kept items, sorted by date, with equal dates in input order |
| Matching.DropSymbols | flow_metrics/utils/matching.py:30 | drops only characters that are neither word characters nor whitespace: the result is no longer than the input, holds only word characters and whitespace, and brings in no upper-case letter |
| Matching.DropSymbolsKeeps | flow_metrics/utils/matching.py:30 | text made only of word characters and whitespace passes through unchanged |
| Matching.NormalizeName | flow_metrics/utils/matching.py:17-31 | the normalised name is the collapsed and stripped form of the lower-cased text without symbols, which holds only lower-case letters, digits, underscores and whitespace |
| Matching.LoweredWordsShape | flow_metrics/utils/matching.py:27-30 | after lower-casing and dropping symbols, only lower-case letters, digits, underscores and whitespace remain |
| Matching.NormalizeNameTidy | flow_metrics/utils/matching.py:17-31 | a normalised name has no leading, trailing or repeated whitespace, and every whitespace in it is a plain space |
| Matching.NormalizeNameChars | flow_metrics/utils/matching.py:17-31 | a normalised name is lower-case and made only of word characters and spaces |
| Matching.NormalizeNameIdempotent | flow_metrics/utils/matching.py:17-31 | normalising a normalised name changes nothing |
| Matching.Ratio | flow_metrics/utils/matching.py:49 | the similarity ratio lies between 0 and 1, and is 1 for equal strings shorter than 200 characters |
| Matching.NameSimilarity | flow_metrics/utils/matching.py:34-49 | the similarity of two names lies between 0 and 1, and is 1 when the names normalise alike |
| Matching.SameNameScoresOne | flow_metrics/utils/matching.py:34-49 | a name and its lower-cased form score 1 |
| Matching.BestAt | flow_metrics/utils/matching.py:74-82 | the index the strict `>` scan settles on is -1 or a valid position |
| Matching.BestAtIsFirstMax | flow_metrics/utils/matching.py:74-82 | the chosen candidate has a positive score that no candidate exceeds, and every earlier candidate scores strictly less: ties go to the first |
| Matching.BestAtNone | flow_metrics/utils/matching.py:74-82 | nothing is chosen exactly when no score is positive |
| Matching.Chosen | flow_metrics/utils/matching.py:70-88 | the best-match selection; what it chooses is stated by `Matching.ChosenMeaning` |
| Matching.ChosenMeaning | flow_metrics/utils/matching.py:70-88 | a candidate is returned exactly when some first-best candidate reaches the threshold, and it is that candidate |
| Matching.ChosenSound | flow_metrics/utils/matching.py:70-88 | a chosen candidate is one of the candidates and reaches the threshold |
| Matching.BestMatch | flow_metrics/utils/matching.py:70-88 | the scan-and-threshold loop returns the chosen candidate and the best score |
| Matching.Filtered | flow_metrics/utils/matching.py:112-116 | a search filters by artist exactly when an artist id is given, and keeps the query |
| Matching.FindMusicBrainzArtist | flow_metrics/utils/matching.py:52-88 | a failed search is raised as "Artist search failed: ..."; otherwise the artist returned is one of the search hits for the Spotify name, is the best match by name similarity, and reaches the threshold |
| Matching.FindMusicBrainzRelease | flow_metrics/utils/matching.py:91-134 | a failed search is raised as "Release search failed: ..."; otherwise the release returned is a hit of the title search, filtered by artist when one is given, is the best by title similarity, and reaches the threshold |
| Matching.FindMusicBrainzReleaseGroup | flow_metrics/utils/matching.py:137-180 | the same as the release search, over release groups, with "Release group search failed: ..." |
| Matching.TrackEntryMeaning | flow_metrics/utils/matching.py:204-231 | a stored track match holds that track and a recording from its search, with that recording's similarity as its score, at or above the threshold; an empty search stores nothing |
| Matching.TabulateKeys | flow_metrics/utils/matching.py:200-233 | a track id is a key exactly when some track with that id has a match, and its value comes from the last such track |
| Matching.TrackMatchesScores | flow_metrics/utils/matching.py:200-233 | every stored entry belongs to a track with that id, holds a recording from that track's search, and has a score that is its similarity and reaches the threshold |
| Matching.NoResultsNoEntry | flow_metrics/utils/matching.py:211-212 | a track whose every search comes back empty gets no entry |
| Matching.MatchTrack | flow_metrics/utils/matching.py:204-231 | one track's loop body: a failed recording search is raised as "Recording search failed: ...", otherwise the track's entry |
| Matching.FindTrackMatches | flow_metrics/utils/matching.py:183-233 | the first track whose recording search fails ends the call with that error; otherwise the dictionary holds one entry per matched track id, the entry of the last track carrying that id |
| Matching.AlbumEntryMeaning | flow_metrics/utils/matching.py:297-306 | an album match pairs the album with a release group from its search, with a score at or above the default threshold |
| Matching.MatchAlbum | flow_metrics/utils/matching.py:297-306 | one album's loop body: a failed release-group search is raised as "Release group search failed: ...", otherwise the album's entry |
| Matching.MatchAlbums | flow_metrics/utils/matching.py:294-306 | the first of the first ten Spotify albums whose search fails ends the call with that error; otherwise the matches of those albums, in order, and at most ten |
| Matching.MatchEach | flow_metrics/utils/matching.py:295-306 | the loop over the chosen albums stops at the first failed search with its error, and otherwise appends each album's match in order |
| Matching.CopyAlbumCounts | flow_metrics/utils/matching.py:268-277 | the Spotify counts hold exactly the four release kinds, each the reported count or else 0 |
| Matching.CompareArtistData | flow_metrics/utils/matching.py:236-320 | a failed search, lookup or listing ends the call with its error, in the order the calls are made; the report "Artist not found on one or both platforms" exactly when either platform finds no artist; otherwise the first hit of each platform, their counts, the album matches among the first ten albums, and the track matches of the top tracks |
| MusicBrainz.Wait | flow_metrics/clients/musicbrainz.py:66-73 | no wait before the first request; otherwise the request goes out no sooner than `rate_limit` after the previous one, and a positive wait ends exactly then |
| MusicBrainz.WithFormat | flow_metrics/clients/musicbrainz.py:92-95 | the caller's parameters are kept as given, and `fmt` is `json` unless the caller chose one |
| MusicBrainz.ClampLimit | flow_metrics/clients/musicbrainz.py:129 | `min(limit, 100)` is at most 100 and at most the limit, and is one of the two |
| MusicBrainz.SearchParams | flow_metrics/clients/musicbrainz.py:127-134 | a search sends the query, the clamped limit, the offset, each filter that is given and `strict` when asked for, and nothing else |
| MusicBrainz.SearchArtistsParams | flow_metrics/clients/musicbrainz.py:127-134 | the artist search sends no filter |
| MusicBrainz.SearchReleaseGroupsParams | flow_metrics/clients/musicbrainz.py:193-204 | the release group search filters by `artistid` exactly when an artist is given |
| MusicBrainz.SearchReleasesParams | flow_metrics/clients/musicbrainz.py:264-278 | the release search filters by `artistid` and `reid` exactly when each is given |
| MusicBrainz.SearchRecordingsParams | flow_metrics/clients/musicbrainz.py:338-352 | the recording search filters the artist as `arid` and the release as `reid`, exactly when each is given |
| MusicBrainz.BrowseParams | flow_metrics/clients/musicbrainz.py:476-490 | a browse sends the browsed entity, the clamped limit and the offset, then the types and statuses joined by "\|" and the includes by "+", each only when non-empty |
| MusicBrainz.BrowseReleaseGroupsParams | flow_metrics/clients/musicbrainz.py:520-531 | the release group browse sends the artist, never a status, and a type exactly when types are given |
| MusicBrainz.BrowseRecordingsParams | flow_metrics/clients/musicbrainz.py:538-567 | the recording browse sends the release, the limit, the offset and the includes when given, and nothing else |
| MusicBrainz.LookupParams | flow_metrics/clients/musicbrainz.py:161-162 | the lookup parameters: `inc` holds the includes joined by "+", present only when there are some (`Common.JoinedParam`) |
| MusicBrainz.Wrapped | flow_metrics/clients/musicbrainz.py:534-536 | a call succeeds exactly when its request and validation do, with that value; a failure is raised under the call's prefix, a request failure as "API request failed: ..." (lines 103-104) |
| MusicBrainz.Collected | flow_metrics/clients/musicbrainz.py:641-656 | what the paging loop yields from page `k` on; its meaning is stated by `MusicBrainz.CollectedFirstEnd` and `MusicBrainz.CollectedCatalog` |
| MusicBrainz.FirstEnd | flow_metrics/clients/musicbrainz.py:641-656 | the first page from `k` on that is short or fails: every page before it is full |
| MusicBrainz.PageRequests | flow_metrics/clients/musicbrainz.py:641-656 | the loop asks for at least one page, and no page past the first short one |
| MusicBrainz.CollectedAfter | flow_metrics/clients/musicbrainz.py:641-656 | after full pages 0 to k-1 and a short page k, the loop has fetched pages 0 to k, in order, with k+1 requests |
| MusicBrainz.CollectedFirstEnd | flow_metrics/clients/musicbrainz.py:641-656 | the loop stops at the first page that fails or comes back short, after that many plus one requests, and raises exactly when that page failed |
| MusicBrainz.CollectedFails | flow_metrics/clients/musicbrainz.py:641-656 | a page that fails after full pages makes the loop raise "Failed to browse artist release groups: ..." with that page's error |
| MusicBrainz.PagingEnd | flow_metrics/clients/musicbrainz.py:650-653 | a page that ends the loop after full pages decides its outcome |
| MusicBrainz.PagingStep | flow_metrics/clients/musicbrainz.py:650-656 | a full page extends what has been fetched and lets the loop go on |
| MusicBrainz.PagingRound | flow_metrics/clients/musicbrainz.py:650-656 | one round of the loop: a page that ends it decides the outcome, any other adds its groups and lets it go on |
| MusicBrainz.CollectedSplit | flow_metrics/clients/musicbrainz.py:641-656 | what was fetched before page k is a prefix of the result, and the requests add up |
| MusicBrainz.CollectedCatalog | flow_metrics/clients/musicbrainz.py:641-656 | against a service holding a catalog of n release groups, the loop returns the catalog in order with n/100+1 requests, the last for an empty page when 100 divides n |
| MusicBrainz.PrimaryBucket | flow_metrics/clients/musicbrainz.py:743-747 | a release group's primary type lands on a tally key, "other" when it is missing or empty |
| MusicBrainz.AddSecondaries | flow_metrics/clients/musicbrainz.py:750-753 | counting secondary types adds no key |
| MusicBrainz.AddGroup | flow_metrics/clients/musicbrainz.py:739-753 | counting one release group adds no key |
| MusicBrainz.ZeroCounts | flow_metrics/clients/musicbrainz.py:705-715 | the tallies start with exactly the nine keys |
| MusicBrainz.TypeCounts | flow_metrics/clients/musicbrainz.py:739-753 | the tallies end with exactly the nine keys |
| MusicBrainz.AddSecondariesCount | flow_metrics/clients/musicbrainz.py:750-753 | a tally grows by the number of secondary types that lower-case to its key |
| MusicBrainz.TypeCountsMeaning | flow_metrics/clients/musicbrainz.py:739-753 | each tally is the number of groups whose primary type lands on it, plus the secondary types naming it, plus one per group for "total" |
| MusicBrainz.PrimaryCountsSum | flow_metrics/clients/musicbrainz.py:743-747 | every group lands in exactly one primary bucket, so the primary counts add up to the number of groups |
| MusicBrainz.SimilarOf | flow_metrics/clients/musicbrainz.py:783-791 | no more similar artists than relations |
| MusicBrainz.SimilarOfMembers | flow_metrics/clients/musicbrainz.py:783-791 | an artist is returned exactly when some relation of type "similar", "influenced by" or "influence" carries it |
| MusicBrainz.CollectSimilar | flow_metrics/clients/musicbrainz.py:783-791 | when every similarity payload validates, one artist per similarity relation, each that payload validated |
| MusicBrainz.SimilarArtistsMeaning | flow_metrics/clients/musicbrainz.py:783-793 | success exactly when every similarity payload validates, with those artists in relation order; otherwise the validation error of the first payload that fails |
| MusicBrainz.PageLogAppend | flow_metrics/clients/musicbrainz.py:641-656 | one more browse request keeps the log a run of page requests at offsets 0, 100, 200, ... |
| MusicBrainz.PageLogAt | flow_metrics/clients/musicbrainz.py:641-656 | the j-th request of such a log asks for the page at offset 100 * j |
| MusicBrainz.SpacedPairs | flow_metrics/clients/musicbrainz.py:66-73 | any two consecutive requests in the log are at least `rate_limit` apart |
| MusicBrainz.Client.constructor | flow_metrics/clients/musicbrainz.py:32-64 | a new client keeps its rate limit, has sent nothing and has no last request time |
| MusicBrainz.Client.RespectRateLimit | flow_metrics/clients/musicbrainz.py:66-73 | sleeps for the wait, then records the time it woke as the last request time |
| MusicBrainz.Client.Send | flow_metrics/clients/musicbrainz.py:98-101 | one request is logged, at the time the limiter lets it go, and requests stay spaced |
| MusicBrainz.Client.MakeRequest | flow_metrics/clients/musicbrainz.py:75-104 | the `fmt` default, then the rate limit, then exactly one logged request to the API |
| MusicBrainz.Client.FetchAllReleaseGroups | flow_metrics/clients/musicbrainz.py:636-656 | the paging loop returns the pages up to the first short one, or the browse error of the first page that fails, having sent one browse per page at offsets 0, 100, ... |
| MusicBrainz.Client.FetchPages | flow_metrics/clients/musicbrainz.py:636-656 | the loop stops at the first page that is short or fails, with the groups of the pages up to it or that page's browse error, and one browse request per page |
| MusicBrainz.Client.RequestPage | flow_metrics/clients/musicbrainz.py:642-648 | one round sends the browse for the page at that offset |
| MusicBrainz.Client.GetArtistTimeline | flow_metrics/clients/musicbrainz.py:619-684 | every page of release groups, then the dated ones grouped by year, years ascending and each year's groups by ascending date; a browse that fails ends the call with its error |
| MusicBrainz.Client.GetArtistInfo | flow_metrics/clients/musicbrainz.py:686-760 | one artist lookup with its includes, then every page of release groups, then their type tallies; a failed lookup raises "Failed to get artist: ..." with no browse, and a failed browse ends the call with its error |
| MusicBrainz.Client.CountTypes | flow_metrics/clients/musicbrainz.py:739-753 | the tally loop gives the tallies `TypeCounts` describes |
| MusicBrainz.Client.CountGroup | flow_metrics/clients/musicbrainz.py:740-753 | one round of the tally loop counts one release group |
| MusicBrainz.Client.FindSimilarArtists | flow_metrics/clients/musicbrainz.py:762-793 | one lookup with artist relations; a failed lookup raises "Failed to get artist: ..."; otherwise no relations gives none, and the similarity relations' artists are validated in order, the first failure raising |
| MusicBrainz.Client.ValidateSimilar | flow_metrics/clients/musicbrainz.py:783-791 | the loop over the relations computes the validated similar artists, or the first validation error |
| MusicBrainz.Client.GetCoverArtFront | flow_metrics/clients/musicbrainz.py:574-617 | one rate-limited request to the Cover Art Archive; the first image flagged front, or "No front cover found", each failure under "Failed to get front cover: " |
| MusicBrainz.FirstFront | flow_metrics/clients/musicbrainz.py:608-610 | nothing exactly when no image is flagged front; otherwise the first flagged image |
| Spotify.UserPassSplit | flow_metrics/clients/spotify.py:48-55 | with no colon in the client id, the encoded credentials split back at the first colon into the id and the secret |
| Spotify.UserPass | flow_metrics/clients/spotify.py:54-55 | the credentials `client_id:client_secret` before encoding; `Spotify.UserPassSplit` states that they split back |
| Spotify.Fresh | flow_metrics/clients/spotify.py:85-92 | a new token keeps the granted access token and lifetime, and expires that many seconds after it was received |
| Spotify.FreshTokenReused | flow_metrics/clients/spotify.py:66-68 | a fresh token is reused by exactly the checks made before it expires, and `_ensure_auth` asks for a new one exactly when `authenticate` would not reuse it |
| Spotify.Client.constructor | flow_metrics/clients/spotify.py:31-46 | a new client keeps its credentials and holds no token |
| Spotify.Client.Authenticate | flow_metrics/clients/spotify.py:57-102 | an unexpired cached token is returned with no request; otherwise one token request goes out, and its grant replaces the token and the Bearer header, or its failure is reported and leaves the cache as it was |
| Spotify.Client.EnsureAuth | flow_metrics/clients/spotify.py:104-111 | authenticates exactly when the token is missing, has no expiry or has expired, so every call that gets through sends a token request |
| Spotify.PageSize | flow_metrics/clients/spotify.py:135 | `min(limit, 50)` is at most 50 and at most the limit, and is one of the two |
| Spotify.MarketParam | flow_metrics/clients/spotify.py:200-201 | the market is sent exactly when it is given |
| Spotify.SearchArtistsParams | flow_metrics/clients/spotify.py:130-138 | the search sends exactly the query, the type "artist", the clamped limit and the offset |
| Spotify.ArtistAlbumsParams | flow_metrics/clients/spotify.py:192-201 | the album listing sends the clamped limit and the offset, the album types joined by "," when there are any, and the market when given |
| Spotify.AlbumTracksParams | flow_metrics/clients/spotify.py:259-265 | the track listing sends the clamped limit, the offset and the market when given |
| Spotify.ArtistRequest | flow_metrics/clients/spotify.py:161 | the `get_artist` request: `/artists/<id>` with no parameters |
| Spotify.ArtistAlbumsRequest | flow_metrics/clients/spotify.py:204 | the `get_artist_albums` request, with the parameters `Spotify.ArtistAlbumsParams` states |
| Spotify.AlbumTracksRequest | flow_metrics/clients/spotify.py:268 | the `get_album_tracks` request, with the parameters `Spotify.AlbumTracksParams` states |
| Spotify.TrackRequest | flow_metrics/clients/spotify.py:274-294 | the `get_track` request: `/tracks/<id>` with the market when given (`Spotify.MarketParam`) |
| Spotify.TopTracksRequest | flow_metrics/clients/spotify.py:555-558 | the top tracks are asked for in the given market, "US" otherwise |
| Spotify.IncludeGroupsRoundTrip | flow_metrics/clients/spotify.py:197-198 | the service can split `include_groups` back into the caller's album types when none contains a comma |
| Spotify.PagesFrom | flow_metrics/clients/spotify.py:368-389 | what the paging loop yields from page `k` on; its meaning is stated by `Spotify.PagesMeaning` |
| Spotify.PagesMeaning | flow_metrics/clients/spotify.py:368-389 | when page `d` is the first with no `next` or no items, or the first that fails, the pagination function counts `d + 1` pages, and the result is the items of pages 0 to `d` in order, or the error of page `d`; `Spotify.FetchAllArtistAlbums` sends that many requests |
| Spotify.PagesSplit | flow_metrics/clients/spotify.py:372-387 | the pages already read are a prefix of the result, and the requests so far add to those still to come |
| Spotify.PagesStep | flow_metrics/clients/spotify.py:381-387 | a page after which the loop goes on puts its items first and costs one request more |
| Spotify.PagesLast | flow_metrics/clients/spotify.py:381-385 | a page after which the loop stops decides the outcome with one request |
| Spotify.PagesSoFarStep | flow_metrics/clients/spotify.py:372-387 | one round of the loop keeps the collected items and the request count in step with the pagination function |
| Spotify.PagesSoFarLast | flow_metrics/clients/spotify.py:372-389 | the last round decides the result and makes `k + 1` requests in all |
| Spotify.AlbumRequests | flow_metrics/clients/spotify.py:373-387 | the first `n` listing requests of `get_all_artist_albums`; one per page |
| Spotify.AlbumRequestsAt | flow_metrics/clients/spotify.py:373-387 | the `i`-th listing request asks for offset `50 * i` with the caller's album types and market |
| Spotify.AlbumsStep | flow_metrics/clients/spotify.py:373-387 | a round that goes on adds the page's albums and its one request |
| Spotify.AlbumsLast | flow_metrics/clients/spotify.py:373-389 | the last round decides the result, and its request completes the log of `PagesRequested` requests |
| Spotify.FetchAllArtistAlbums | flow_metrics/clients/spotify.py:349-389 | the loop returns what the pagination function describes, and sends exactly as many listing requests as it counts, the `i`-th for offset `50 * i` (`Spotify.AlbumRequestsAt`) |
| Spotify.Resolve | flow_metrics/clients/spotify.py:421-428 | a listed track becomes its full record when the lookup succeeds, and stays the listed item when it fails |
| Spotify.ResolveItems | flow_metrics/clients/spotify.py:421-428 | the inner loop resolves every listed item, in order, with one detail lookup per item, in the same order |
| Spotify.LookupRequests | flow_metrics/clients/spotify.py:421-428 | the detail lookups of one page; one per listed item |
| Spotify.LookupRequestsAt | flow_metrics/clients/spotify.py:421-424 | the `i`-th lookup asks for the `i`-th listed track in the caller's market |
| Spotify.TrackLogStep | flow_metrics/clients/spotify.py:412-434 | a page after which the loop goes on sends its listing request, then its lookups, then the rest |
| Spotify.TrackLogSplit | flow_metrics/clients/spotify.py:412-434 | before page `k` the loop has sent `k` listing requests and one lookup per item those pages listed |
| Spotify.TrackLogCount | flow_metrics/clients/spotify.py:412-434 | when page `d` is the first after which the loop stops, `d + 1` listing requests go out and one lookup for every item listed on a page that came back |
| Spotify.TracksStep | flow_metrics/clients/spotify.py:412-434 | one round of the loop keeps the tracks and the requests in step with the functions that describe them |
| Spotify.TracksLast | flow_metrics/clients/spotify.py:412-436 | the last round decides the result: the page error with only its listing request, or every resolved track with the page's lookups last |
| Spotify.MapPrepend | flow_metrics/clients/spotify.py:412-434 | resolving after extending is extending with the resolved items |
| Spotify.FetchAllAlbumTracks | flow_metrics/clients/spotify.py:391-436 | the loop returns the resolved tracks of every listing page, or the error of the page that failed; the requests it sends are, page by page, the listing at offset `50 * k` and then one lookup per listed item (`Spotify.TrackLogFrom`), counted by `Spotify.TrackLogCount` |
| Spotify.AlbumTracksOneEach | flow_metrics/clients/spotify.py:391-436 | every listed track yields exactly one track in listing order: the full record when its lookup succeeds, else the listed item |
| Spotify.FetchArtistAllTracks | flow_metrics/clients/spotify.py:438-470 | all albums are listed first, then each album's tracks are concatenated in album order; the first failing listing ends it with its error |
| Spotify.TracksOfAlbums | flow_metrics/clients/spotify.py:455-468 | the tracks of each album in album order, or the error of the first album whose listing fails |
| Spotify.GetArtistTimeline | flow_metrics/clients/spotify.py:472-520 | every album is filed under the text of its release date before the first "-", years ascending and each year's albums newest first |
| Spotify.TimelineHoldsEveryAlbum | flow_metrics/clients/spotify.py:498-518 | every listed album appears under its year, as often as it was listed, in a list sorted newest first |
| Spotify.TallyTypes | flow_metrics/clients/spotify.py:542-552 | the tallies have exactly the five keys |
| Spotify.TypeCount | flow_metrics/clients/spotify.py:550-552 | no more albums of one type than albums |
| Spotify.CountAlbumTypes | flow_metrics/clients/spotify.py:542-552 | the counting loop gives the tallies the specification function describes |
| Spotify.TallyMeaning | flow_metrics/clients/spotify.py:542-552 | each type tally counts the albums of that type, and "total" is the number of albums plus any album whose type is the text "total" |
| Spotify.FourTypesBounded | flow_metrics/clients/spotify.py:550-552 | the four type tallies add up to at most the number of albums |
| Spotify.AlbumCountsBounded | flow_metrics/clients/spotify.py:542-552 | "total" is at least the number of albums, exactly that when no album has type "total", and at least the sum of the four type tallies |
| Spotify.AveragePopularity | flow_metrics/clients/spotify.py:561-565 | 0.0 for no tracks; otherwise the average times the number of tracks is the sum of popularities, a missing one counting as 0 |
| Spotify.PopularitySumBounded | flow_metrics/clients/spotify.py:562 | with popularities from 0 to 100, their sum is between 0 and 100 per track |
| Spotify.AveragePopularityBounded | flow_metrics/clients/spotify.py:561-565 | with popularities from 0 to 100, so is their average |
| Spotify.StatsOf | flow_metrics/clients/spotify.py:567-575 | followers is the artist's follower total, or 0 when missing |
| Spotify.GetArtistStats | flow_metrics/clients/spotify.py:522-575 | the artist, then all albums, then the top tracks are fetched, and the first failing call's error ends it; otherwise the statistics of the three |
| Musixmatch.WithKey | flow_metrics/clients/musixmatch.py:45-46 | every request carries the client's key, replacing any key the caller gave, and keeps the caller's other parameters |
| Musixmatch.MakeRequest | flow_metrics/clients/musixmatch.py:31-64 | one request with the key; its outcomes are stated by `Musixmatch.MakeRequestOutcomes` |
| Musixmatch.MakeRequestOutcomes | flow_metrics/clients/musixmatch.py:31-64 | success exactly when the exchange works and the header says 200; a refused answer raises "API error: <hint>" with its status (0 when missing, hint "Unknown error" when missing); a failed exchange raises "Request failed: ..." with no status |
| Musixmatch.Wrap | flow_metrics/clients/musixmatch.py:86-94 | an error from `_make_request` is raised unchanged, and a failed validation is wrapped with the method's prefix and no status |
| Musixmatch.PageSize | flow_metrics/clients/musixmatch.py:83 | `min(page_size, 100)` is at most 100 and at most the asked size, and is one of the two |
| Musixmatch.SearchArtistParams | flow_metrics/clients/musixmatch.py:80-84 | the artist search sends exactly the name, the page and the clamped size |
| Musixmatch.TextParam | flow_metrics/clients/musixmatch.py:125-130 | a text filter is sent exactly when it is non-empty |
| Musixmatch.SearchTracksParams | flow_metrics/clients/musixmatch.py:119-130 | the track search sends the page, the clamped size, the rating order and each non-empty filter |
| Musixmatch.ArtistTracksParams | flow_metrics/clients/musixmatch.py:161-166 | the artist's tracks query sends exactly the artist, the page, the clamped size and the rating order |
| Musixmatch.LyricsParams | flow_metrics/clients/musixmatch.py:190-192 | the lyrics query sends only the track id |
| Musixmatch.SearchArtist | flow_metrics/clients/musixmatch.py:66-94 | success exactly when the answer says 200 and its records validate, giving those records; a validation failure is "Artist search failed: ..." with no status |
| Musixmatch.SearchTracks | flow_metrics/clients/musixmatch.py:96-140 | the same for the track search, with "Track search failed: " |
| Musixmatch.GetArtistTracks | flow_metrics/clients/musixmatch.py:142-176 | the same for an artist's tracks, with "Failed to get artist tracks: " |
| Musixmatch.GetTrackLyrics | flow_metrics/clients/musixmatch.py:178-202 | the same for the lyrics, with "Failed to get track lyrics: " |
| Musixmatch.ArtistTracksCarryKey | flow_metrics/clients/musixmatch.py:142-176 | the request carries the key and the clamped size, and a status other than 200 comes back as the error's status |
| Musixmatch.GetAllArtistTracks | flow_metrics/clients/musixmatch.py:204-241 | a limit of 0 or less gives no tracks and sends no request; otherwise the page loop with page size `min(100, limit)` from page 1, sending exactly `Requests` search requests, the `i`-th for page `i + 1` (`Musixmatch.TrackSearchLogAt`) |
| Musixmatch.TrackSearchLog | flow_metrics/clients/musixmatch.py:221-232 | the first `n` requests of `get_all_artist_tracks`; one per page |
| Musixmatch.TrackSearchLogAt | flow_metrics/clients/musixmatch.py:221-232 | the `i`-th request asks for page `i + 1` with the client's key and the loop's page size |
| Musixmatch.CollectStep | flow_metrics/clients/musixmatch.py:221-239 | one round of the loop: a failed page ends it with its error, a short page or one reaching the limit ends it with the result, and a full page below the limit goes on; each round adds one request |
| Musixmatch.ArtistTracksRequest | flow_metrics/clients/musixmatch.py:180-202 | the request `get_artist_tracks` sends; `Musixmatch.ArtistTracksCarryKey` states its key and page size |
| Musixmatch.Collect | flow_metrics/clients/musixmatch.py:217-239 | the page loop from page `page` on; its meaning is stated by `Musixmatch.CollectMeaning` |
| Musixmatch.CollectMeaning | flow_metrics/clients/musixmatch.py:217-239 | the result is everything the requested pages held, in page order, or its first `limit` tracks when a full page reached the limit |
| Musixmatch.RequestsBounded | flow_metrics/clients/musixmatch.py:221-239 | the number of requests `Musixmatch.GetAllArtistTracks` sends: none once `limit` tracks are held, at least one otherwise, and every page but the last was full |
| Musixmatch.CollectBounded | flow_metrics/clients/musixmatch.py:221-239 | a short page ends the loop without a cut, so the result can pass `limit`, but by less than one page |
| Musixmatch.SmallLimitRespected | flow_metrics/clients/musixmatch.py:219-239 | with a limit of at most 100, `Musixmatch.GetAllArtistTracks` sends one request, which settles the result, and the result never passes the limit |
| Musixmatch.LargeLimitOvershoots | flow_metrics/clients/musixmatch.py:219-239 | with a limit of 150, a full first page and a second page of 99 give 199 tracks |
| Vocabulary.DigitRun | flow_metrics/analysis/vocabulary.py:74 | the length of the leading run of digits: all of them are digits and the next character is not |
| Vocabulary.TimestampAt | flow_metrics/analysis/vocabulary.py:74 | a timestamp match at the start is at least five characters, opens with "[" and closes with "]" |
| Vocabulary.RemoveTimestamps | flow_metrics/analysis/vocabulary.py:74 | dropping timestamps only shortens the text and brings in no upper-case letter |
| Vocabulary.SpanEnd | flow_metrics/analysis/vocabulary.py:77-80 | the non-greedy match stops at the first closing bracket, with no closing bracket and no line break before it |
| Vocabulary.RemoveSpans | flow_metrics/analysis/vocabulary.py:77-80 | dropping bracketed spans only shortens the text and brings in no upper-case letter |
| Vocabulary.SpanEndNone | flow_metrics/analysis/vocabulary.py:77-80 | no span ends exactly when no closing bracket comes before the first line break |
| Vocabulary.RemoveSpansKeepsNoClose | flow_metrics/analysis/vocabulary.py:77-80 | dropping spans keeps a text free of a closing bracket before its first line break |
| Vocabulary.RemoveSpansComplete | flow_metrics/analysis/vocabulary.py:77-80 | after the substitution no span the pattern matches is left |
| Vocabulary.RemoveSpansIdentity | flow_metrics/analysis/vocabulary.py:77-80 | a text with no opening bracket is unchanged |
| Vocabulary.RemoveTimestampsIdentity | flow_metrics/analysis/vocabulary.py:74 | a text with no "[" is unchanged |
| Vocabulary.RemovePunct | flow_metrics/analysis/vocabulary.py:83 | dropping punctuation leaves none, only shortens the text and brings in no upper-case letter |
| Vocabulary.RemovePunctIdentity | flow_metrics/analysis/vocabulary.py:83 | a text without punctuation is unchanged |
| Vocabulary.CleanLyrics | flow_metrics/analysis/vocabulary.py:61-86 | `clean_lyrics`; its shape and idempotence are stated by `Vocabulary.CleanLyricsShape` and `Vocabulary.CleanLyricsIdempotent` |
| Vocabulary.CleanLyricsShape | flow_metrics/analysis/vocabulary.py:61-86 | cleaned lyrics are lower-case, hold no punctuation, and have single plain spaces and none at either end |
| Vocabulary.CleanLyricsIdempotent | flow_metrics/analysis/vocabulary.py:61-86 | cleaning cleaned lyrics changes nothing |
| Vocabulary.RemoveSpansContents | flow_metrics/analysis/vocabulary.py:77 | for any text before the first opening bracket and any span contents without a closing bracket or line break, the span goes with its contents, the text before it stays, and the rest is processed on its own |
| Vocabulary.RemoveSpansShortest | flow_metrics/analysis/vocabulary.py:77 | the first closing bracket ends a span, so a second closing bracket right after it survives |
| Vocabulary.RemoveSpansOneLine | flow_metrics/analysis/vocabulary.py:77 | a span does not cross a line break: an opening bracket with no closing bracket before the end of its line stays |
| Vocabulary.SpanEndAtClose | flow_metrics/analysis/vocabulary.py:77 | the non-greedy match stops at the first closing bracket when no line break comes before it |
| Vocabulary.SpanEndAtBreak | flow_metrics/analysis/vocabulary.py:77 | a line break before any closing bracket means no match |
| Vocabulary.RemoveSpansKeepsPrefix | flow_metrics/analysis/vocabulary.py:77 | text without an opening bracket passes through unchanged, whatever follows it |
| Vocabulary.FilterWordsMeaning | flow_metrics/analysis/vocabulary.py:99-113 | the kept words are, in input order, exactly the words that are not stop words, not section headers and longer than one character, each as often as in the input |
| Vocabulary.FilterWords | flow_metrics/analysis/vocabulary.py:99-113 | `filter_words`; what it keeps is stated by `Vocabulary.FilterWordsMeaning` |
| Vocabulary.TotalLength | flow_metrics/analysis/vocabulary.py:161 | alphabetic words are at least one character each |
| Vocabulary.Lemmatized | flow_metrics/analysis/vocabulary.py:115-124 | one lemma per word |
| Vocabulary.DistinctAtMost | flow_metrics/analysis/vocabulary.py:151-155 | there are no more distinct words than words |
| Vocabulary.RatioBounds | flow_metrics/analysis/vocabulary.py:158 | a ratio of a count to a larger count lies between 0 and 1 |
| Vocabulary.MetricsBounds | flow_metrics/analysis/vocabulary.py:154-174 | from word counts alone: the ratios lie between 0 and 1, the average length is at least 1 when there are words, and all three are 0 when there are none |
| Vocabulary.AnalyzeLyricsBounds | flow_metrics/analysis/vocabulary.py:126-174 | the distinct lemmas are at most the words, the type-token ratio and the lexical density lie between 0 and 1, the average length is at least 1 when there are words, and all three are 0 when there are none |
| Vocabulary.AnalyzeLyrics | flow_metrics/analysis/vocabulary.py:126-174 | `analyze_lyrics`; its bounds are stated by `Vocabulary.AnalyzeLyricsBounds` |
| Vocabulary.RichnessSign | flow_metrics/analysis/vocabulary.py:176-195 | 0 when the baseline ratio is not positive; otherwise the score has the sign of the difference of the ratios, never goes below -100, and times the baseline ratio is 100 times the difference |
| Vocabulary.VocabularyRichness | flow_metrics/analysis/vocabulary.py:176-195 | `calculate_vocabulary_richness`; its sign and bounds are stated by `Vocabulary.RichnessSign` |
| LyricsScraper.Pause | flow_metrics/clients/lyrics_scraper.py:32-40 | no pause unless a request was stamped less than `rate_limit` ago; a pause lets the next request out between 0.1 and 1.0 seconds after the limit has passed |
| LyricsScraper.RequestOutcome | flow_metrics/clients/lyrics_scraper.py:74-80 | a fetched page is returned as it is, and a failed fetch becomes "Request failed: ..." |
| LyricsScraper.Scraper.constructor | flow_metrics/clients/lyrics_scraper.py:17-24 | a new scraper keeps its rate limit, has sent nothing and has never been stamped |
| LyricsScraper.Scraper.RespectRateLimit | flow_metrics/clients/lyrics_scraper.py:32-40 | sleeps for the jittered pause, then stamps the time it woke |
| LyricsScraper.Scraper.MakeRequest | flow_metrics/clients/lyrics_scraper.py:60-80 | waits for the limiter, logs exactly one request, keeps consecutive requests `rate_limit` apart, and reports the fetch's outcome |
| LyricsScraper.Substitute | flow_metrics/clients/lyrics_scraper.py:93-94 | each character is lower-cased when it is a letter or digit and replaced by the fill character otherwise; the length is kept |
| LyricsScraper.AzQueryShape | flow_metrics/clients/lyrics_scraper.py:93-96 | the query keeps the length and uses only lower-case letters, digits and "+"; it is its own query, and it equals its input exactly when the input is already of that shape |
| LyricsScraper.AzSearchUrl | flow_metrics/clients/lyrics_scraper.py:93-96 | the AZLyrics search address: the query of the artist and that of the title joined by "+"; the query's shape is stated by `LyricsScraper.AzQueryShape` |
| LyricsScraper.TrimLeft | flow_metrics/clients/lyrics_scraper.py:190-191 | `lstrip(c)` drops exactly the leading run of `c` |
| LyricsScraper.TrimRight | flow_metrics/clients/lyrics_scraper.py:190-191 | `rstrip(c)` drops exactly the trailing run of `c` |
| LyricsScraper.StripChar | flow_metrics/clients/lyrics_scraper.py:190-191 | `strip(c)` leaves no `c` at either end and adds no character |
| LyricsScraper.MetroSlugChars | flow_metrics/clients/lyrics_scraper.py:190-194 | the slug is no longer than its input and uses only lower-case letters, digits and inner dashes |
| LyricsScraper.MetroSlugFixpoint | flow_metrics/clients/lyrics_scraper.py:190-194 | a slug is its own slug |
| LyricsScraper.MetroUrl | flow_metrics/clients/lyrics_scraper.py:190-194 | the guessed MetroLyrics address from the two slugs, stated by `LyricsScraper.MetroSlugChars` |
| LyricsScraper.EscapeSpaces | flow_metrics/clients/lyrics_scraper.py:264 | no space is left |
| LyricsScraper.EscapeSpacesRoundTrip | flow_metrics/clients/lyrics_scraper.py:263-264 | escaping loses nothing for text without "%" |
| LyricsScraper.LyricsComUrl | flow_metrics/clients/lyrics_scraper.py:262-264 | the Lyrics.com search address from the lower-cased terms with spaces escaped, stated by `LyricsScraper.EscapeSpaces` |
| LyricsScraper.DropLyricsBy | flow_metrics/clients/lyrics_scraper.py:145 | a leading "lyrics by:" in any case is dropped, and nothing else changes |
| LyricsScraper.CleanAzArtistCredit | flow_metrics/clients/lyrics_scraper.py:144-145 | a heading "Lyrics by: X", in any case, is reduced to the name X |
| LyricsScraper.Unquote | flow_metrics/clients/lyrics_scraper.py:151 | one pair of surrounding double quotes goes when no line break lies between them, a final line break staying; otherwise the text is unchanged |
| LyricsScraper.UnquoteQuoted | flow_metrics/clients/lyrics_scraper.py:150-151 | a quoted one-line title loses its quotes |
| LyricsScraper.CleanAzTitle | flow_metrics/clients/lyrics_scraper.py:150-151 | the AZLyrics title clean-up: strip, then `LyricsScraper.Unquote` |
| LyricsScraper.DropLyricsSuffix | flow_metrics/clients/lyrics_scraper.py:228 | a final " lyrics" in any case, also before a last line break, is dropped, and nothing else changes |
| LyricsScraper.CleanMetroTitleSuffix | flow_metrics/clients/lyrics_scraper.py:227-228 | a heading "T Lyrics", in any case, is reduced to the title T |
| LyricsScraper.CleanMetroTitle | flow_metrics/clients/lyrics_scraper.py:227-228 | the MetroLyrics title clean-up: strip, then `LyricsScraper.DropLyricsSuffix` |
| LyricsScraper.FirstSongLink | flow_metrics/clients/lyrics_scraper.py:106-114 | the first link of the first song-results panel that has one; nothing exactly when no panel has one |
| LyricsScraper.SearchAzlyrics | flow_metrics/clients/lyrics_scraper.py:82-117 | a failed request gives nothing; a found address is the first link of a song-results panel of the search page |
| LyricsScraper.SearchMetrolyrics | flow_metrics/clients/lyrics_scraper.py:179-202 | the guessed address is kept exactly when a HEAD request answers 200 |
| LyricsScraper.MatchingResult | flow_metrics/clients/lyrics_scraper.py:273-279 | the first result naming both the artist and the title decides: its absolute address, or nothing when it has no `href`; no such result gives nothing |
| LyricsScraper.SearchLyricsCom | flow_metrics/clients/lyrics_scraper.py:252-281 | a failed request gives nothing; a found address is that of a result naming both the artist and the title |
| LyricsScraper.GetLyricsFromAzlyrics | flow_metrics/clients/lyrics_scraper.py:119-177 | scraped lyrics carry their address and the source "AZLyrics", and a failed fetch is "Request failed: ..." |
| LyricsScraper.GetLyricsFromMetrolyrics | flow_metrics/clients/lyrics_scraper.py:204-250 | scraped lyrics carry their address and the source "MetroLyrics"; a failed fetch is "Request failed: ...", and a page without verses is "Could not find lyrics container" |
| LyricsScraper.GetLyricsFromLyricsCom | flow_metrics/clients/lyrics_scraper.py:283-331 | scraped lyrics carry their address and the source "Lyrics.com", and a failed fetch is "Request failed: ..." |
| LyricsScraper.GetLyrics | flow_metrics/clients/lyrics_scraper.py:347-351 | whichever site scrapes, the lyrics carry the address they came from |
| LyricsScraper.ResumeTwice | flow_metrics/clients/lyrics_scraper.py:353-362 | errors recorded in two steps are the errors recorded at once |
| LyricsScraper.ErrorsOf | flow_metrics/clients/lyrics_scraper.py:356-362 | at most one error per source |
| LyricsScraper.Fallback | flow_metrics/clients/lyrics_scraper.py:356-367 | the fallback chain; its outcomes are stated by `LyricsScraper.FallbackFirstSuccess` and `LyricsScraper.FallbackExhausted` |
| LyricsScraper.FallbackFirstSuccess | flow_metrics/clients/lyrics_scraper.py:356-360 | the chain answers with the page of the first source that finds an address and scrapes it |
| LyricsScraper.FallbackExhausted | flow_metrics/clients/lyrics_scraper.py:356-367 | the chain is exhausted exactly when no source succeeds, and then holds the error of every source that found an address, in order |
| LyricsScraper.GetSongLyrics | flow_metrics/clients/lyrics_scraper.py:333-367 | the loop over the three sources returns what the fallback chain describes |
| LyricsScraper.SongLyrics | flow_metrics/clients/lyrics_scraper.py:333-367 | `get_song_lyrics`; its outcome is stated by `LyricsScraper.SongLyricsOutcome` |
| LyricsScraper.SongLyricsOutcome | flow_metrics/clients/lyrics_scraper.py:333-367 | the call fails exactly when no source succeeds, and its message lists the errors of the sources that found an address, in the order tried |
| LyricsScraper.ArtistHrefs | flow_metrics/clients/lyrics_scraper.py:398-401 | the addresses are the `href`s of exactly the links that have one and whose text contains the artist's name ignoring case, in page order |
| LyricsScraper.ArtistUrlsNoPanel | flow_metrics/clients/lyrics_scraper.py:395-402 | without an "artist results" panel there is no artist address |
| LyricsScraper.ArtistUrlsFirstPanel | flow_metrics/clients/lyrics_scraper.py:395-402 | only the first "artist results" panel is read: the addresses are its artist links |
| LyricsScraper.SongsOfAlbum | flow_metrics/clients/lyrics_scraper.py:421-424 | one song per link, with the stripped text and the absolute address |
| LyricsScraper.SongsOfComplete | flow_metrics/clients/lyrics_scraper.py:416-424 | every song link under every album gives a song of the list |
| LyricsScraper.SongsOfSound | flow_metrics/clients/lyrics_scraper.py:416-424 | every song of the list comes from a song link under some album |
| LyricsScraper.ArtistPageSongs | flow_metrics/clients/lyrics_scraper.py:408-428 | the artist page step: a failed request or unreadable page is raised as "Failed to search artist songs: ...", otherwise the songs of its albums |
| LyricsScraper.SearchArtistSongs | flow_metrics/clients/lyrics_scraper.py:369-428 | a failed search request is raised as "Failed to search artist songs: ..." with the request error |
| LyricsScraper.SearchArtistSongsMeaning | flow_metrics/clients/lyrics_scraper.py:369-428 | every failure is raised as "Failed to search artist songs: ..."; with the search page read, no artist address gives no song, and otherwise the songs are those of the page of the first artist address |
| LyricsScraper.Kept | flow_metrics/clients/lyrics_scraper.py:454-460 | no more lyrics than songs |
| LyricsScraper.ArtistLyrics | flow_metrics/clients/lyrics_scraper.py:430-466 | `get_artist_lyrics`; its batch is stated by `LyricsScraper.ArtistLyricsBounds` |
| LyricsScraper.GetArtistLyrics | flow_metrics/clients/lyrics_scraper.py:430-466 | the loop returns what the batch function describes: no songs is an error, otherwise the lyrics of the first `max_songs` songs whose page scrapes |
| LyricsScraper.KeptMeaning | flow_metrics/clients/lyrics_scraper.py:454-460 | the kept lyrics are, in order, the scraped pages of exactly the songs whose page scrapes |
| LyricsScraper.ArtistLyricsBounds | flow_metrics/clients/lyrics_scraper.py:430-462 | a batch means the search found songs; it holds at most `max_songs` lyrics, and they are, in order, the scraped pages of exactly the chosen songs whose page scrapes |
| Cleanup.GetOr | cleanup_artists.py:66-69 | `d.get(k, default)`: the value when the key is present, else the default |
| Cleanup.IfHas | cleanup_artists.py:111-116 | a value is taken exactly when the key is present and truthy |
| Cleanup.MbInfo | cleanup_artists.py:73-74 | the MusicBrainz record is used exactly when `musicbrainz_info` is truthy |
| Cleanup.SortedIfHas | cleanup_artists.py:93-109 | a release list is produced exactly when it is present and truthy |
| Cleanup.CleanupArtist | cleanup_artists.py:51-129 | the MusicBrainz details, albums and singles are present exactly when the input's fields are truthy |
| Cleanup.CleanupBaseFields | cleanup_artists.py:61-70 | the identity fields are copied; popularity, followers, URI and links default to 0, 0, "" and {}; the stamp is kept or else set to now (lines 124-127) |
| Cleanup.CleanupMusicBrainz | cleanup_artists.py:73-82 | the MusicBrainz fields are set exactly when `musicbrainz_info` is truthy, each `None` when the record lacks it, and the life span only when it is truthy |
| Cleanup.CleanupReleaseCounts | cleanup_artists.py:84-90 | release counts come from MusicBrainz when it has truthy ones, else from `album_counts` when present, and are absent otherwise |
| Cleanup.CleanupReleases | cleanup_artists.py:93-109 | albums and singles are reordered newest first, keep every element, and keep equal dates in input order |
| Cleanup.CleanupCopies | cleanup_artists.py:111-121 | compilations and top tracks are copied exactly when truthy, and the image is the first Spotify image |
| FixMusicBrainzModels.NormalizedKeys | flow_metrics/utils/fix_musicbrainz_models.py:22-38 | afterwards the legacy list key is gone, `release-groups` is present if either list key was, the count alias if either count key was, and `offset` always |
| FixMusicBrainzModels.NormalizedValues | flow_metrics/utils/fix_musicbrainz_models.py:22-38 | the legacy list replaces `release-groups`, an existing count alias wins over `count`, an existing offset is kept or else it is 0, and every other key keeps its value |
| FixMusicBrainzModels.NormalizedIdempotent | flow_metrics/utils/fix_musicbrainz_models.py:22-38 | running the validator on its own output changes nothing |
| FixMusicBrainzModels.Normalized | flow_metrics/utils/fix_musicbrainz_models.py:22-38 | `validate_structure`'s rewrite; its keys and values are stated by `FixMusicBrainzModels.NormalizedKeys` and `FixMusicBrainzModels.NormalizedValues` |
| FixMusicBrainzModels.ResponseData.constructor | flow_metrics/utils/fix_musicbrainz_models.py:22-23 | the object holds the response dictionary |
| FixMusicBrainzModels.ResponseData.ValidateStructure | flow_metrics/utils/fix_musicbrainz_models.py:22-38 | the same object comes back, with its dictionary normalised in place |
| FixMusicBrainzModels.Build | flow_metrics/utils/fix_musicbrainz_models.py:11-16 | building fails exactly when a count or offset does not convert to an integer or the release groups are not a list; otherwise each field is the converted value, or 0, 0 and an empty list when missing |
| FixMusicBrainzModels.LaxInt | flow_metrics/utils/fix_musicbrainz_models.py:11-12 | pydantic's lax integer conversion: integers as they are, booleans as 1 or 0, numbers with no fractional part, strings that hold a decimal integer; nothing else |
| FixMusicBrainzModels.DigitsRoundTrip | flow_metrics/utils/fix_musicbrainz_models.py:11-12 | the decimal digits of a natural number read back as that number |
| FixMusicBrainzModels.ParseIntRoundTrip | flow_metrics/utils/fix_musicbrainz_models.py:11-12 | reading back the decimal text of any integer gives that integer |
| FixMusicBrainzModels.BuildReadsTextCount | flow_metrics/utils/fix_musicbrainz_models.py:11-16 | a count given as the text of an integer builds as that integer |
| FixMusicBrainzModels.BuildAfterValidation | flow_metrics/utils/fix_musicbrainz_models.py:11-38 | an empty response builds with the defaults, and one with only the legacy spellings builds with its list and its count |
| CollectArtists.AddNotables | flow_metrics/scripts/collect_artists.py:107-127 | the notable-name loop only appends to what it holds and stops by `limit` |
| CollectArtists.AddNotablesDistinct | flow_metrics/scripts/collect_artists.py:117-119 | the notable-name loop keeps ids distinct |
| CollectArtists.AddNotablesFromHits | flow_metrics/scripts/collect_artists.py:111-119 | the notable-name loop appends only first results of its name queries |
| CollectArtists.DistinctAppend | flow_metrics/scripts/collect_artists.py:144-152 | adding an artist whose id is not in `artists_seen` keeps the collected ids distinct |
| CollectArtists.TakeMatching | flow_metrics/scripts/collect_artists.py:142-156 | the loop over one query's results only appends and never passes `limit` when it starts below it |
| CollectArtists.TakeMatchingDistinct | flow_metrics/scripts/collect_artists.py:143-150 | the loop over one query's results keeps ids distinct |
| CollectArtists.TakeMatchingAccepted | flow_metrics/scripts/collect_artists.py:143-150 | the loop over one query's results appends only results of that query that pass the genre test |
| CollectArtists.AddByGenre | flow_metrics/scripts/collect_artists.py:130-161 | the genre loop only appends and stops by `limit` |
| CollectArtists.AddByGenreDistinct | flow_metrics/scripts/collect_artists.py:130-161 | the genre loop keeps ids distinct |
| CollectArtists.AddByGenreAccepted | flow_metrics/scripts/collect_artists.py:130-161 | the genre loop appends only artists that pass the genre test |
| CollectArtists.GenreQueries | flow_metrics/scripts/collect_artists.py:130-140 | at most one query per term, each asking for at least one artist and at most `min(20, limit - len(artists))` |
| CollectArtists.GenreQueriesFollowTerms | flow_metrics/scripts/collect_artists.py:130-140 | the i-th query sent is `genre:` followed by the i-th term |
| CollectArtists.MentionsHipHop | flow_metrics/scripts/collect_artists.py:145-149 | the collection script's genre test: a hip-hop word occurs in the lower-cased genres joined by spaces; `GetArtistData.MentionedNotListed` shows how it differs |
| CollectArtists.HarvestMeaning | flow_metrics/scripts/collect_artists.py:65-164 | the search returns at most `limit` artists (none for a limit of zero or less), no id twice, the notable first results first, then only artists that pass the genre test |
| CollectArtists.IdsAppend | flow_metrics/scripts/collect_artists.py:118-119 | appending an artist adds exactly its id to `artists_seen` |
| CollectArtists.AddNotableArtists | flow_metrics/scripts/collect_artists.py:107-127 | the loop computes the notable-name fold, and `artists_seen` is exactly the ids held |
| CollectArtists.TakeMatchingResults | flow_metrics/scripts/collect_artists.py:142-156 | the loop computes the results fold, and `artists_seen` stays the ids held |
| CollectArtists.GenreTurn | flow_metrics/scripts/collect_artists.py:135-158 | one query of `min(cap, limit - len(artists))` artists; its results are taken by the genre test, and a failed query adds nothing |
| CollectArtists.AddGenreArtists | flow_metrics/scripts/collect_artists.py:130-161 | the loop computes the genre fold and sends exactly the queries `GenreQueries` lists |
| CollectArtists.GenreStep | flow_metrics/scripts/collect_artists.py:130-161 | one turn of the genre loop, below `limit`, sends one query for its term and continues from the artists it adds |
| CollectArtists.Harvest | flow_metrics/scripts/collect_artists.py:65-164 | the artist search; what it returns is stated by `CollectArtists.HarvestMeaning` |
| CollectArtists.SearchHipHop | flow_metrics/scripts/collect_artists.py:107-164 | the two loops return the notable results, then the genre results |
| CollectArtists.SearchHipHopArtists | flow_metrics/scripts/collect_artists.py:65-164 | `search_hip_hop_artists` with the script's eight terms, eleven names, page cap 20 and substring genre test |
| CollectArtists.MbPickMeaning | flow_metrics/scripts/collect_artists.py:321-333 | the scan raises exactly when a score is missing; an artist is picked exactly when a score exceeds 70, and it is the first artist with the highest score |
| CollectArtists.MbPick | flow_metrics/scripts/collect_artists.py:321-333 | the best-score scan; what it picks or raises is stated by `CollectArtists.MbPickMeaning` |
| CollectArtists.PickMbArtist | flow_metrics/scripts/collect_artists.py:321-333 | the loop over the MusicBrainz results computes that pick |
| CollectArtists.ReleaseOf | flow_metrics/scripts/collect_artists.py:240-248 | a release entry has an image exactly when the album has one, and then it is the first |
| CollectArtists.FetchReleasesMeaning | flow_metrics/scripts/collect_artists.py:233-315 | a release list is filled exactly when its query and every earlier query of the same try block succeeded, with one entry per release in order; appearances are cut to 100 |
| CollectArtists.FetchReleases | flow_metrics/scripts/collect_artists.py:233-315 | the release lists; their contents are stated by `CollectArtists.FetchReleasesMeaning` |
| CollectArtists.FullDataMeaning | flow_metrics/scripts/collect_artists.py:167-357 | a record comes back unless a MusicBrainz result lacks its score; it keeps the artist's id and name, has statistics exactly when their request succeeded, and has MusicBrainz data exactly when the search and the info request succeeded and the best score exceeds 70, with that artist's id, name and counts |
| CollectArtists.MbLookup | flow_metrics/scripts/collect_artists.py:317-356 | the MusicBrainz part of the record, stated by `CollectArtists.FullDataMeaning` |
| CollectArtists.FullData | flow_metrics/scripts/collect_artists.py:167-357 | the per-artist record; its contents are stated by `CollectArtists.FullDataMeaning` |
| CollectArtists.GetArtistFullData | flow_metrics/scripts/collect_artists.py:167-357 | the body, request by request, builds the record `FullData` describes |
| CollectArtists.Process | flow_metrics/scripts/collect_artists.py:436-457 | one stored record per artist, in order, up to the first artist whose record raises; that error ends the run (lines 466-470) |
| CollectArtists.ProcessArtists | flow_metrics/scripts/collect_artists.py:436-457 | the loop over the artists computes that batch |
| CollectArtists.ProcessStops | flow_metrics/scripts/collect_artists.py:436-470 | once the loop has failed, later artists change nothing |
| CollectArtists.StopAt | flow_metrics/scripts/collect_artists.py:410-417 | the selection loop stops early only after `limit` artists are kept |
| CollectArtists.StopAtBound | flow_metrics/scripts/collect_artists.py:410-417 | the selection never keeps more than a positive `limit` |
| CollectArtists.KeepNewArtists | flow_metrics/scripts/collect_artists.py:409-417 | the loop computes the new-artist selection |
| CollectArtists.SelectNewArtists | flow_metrics/scripts/collect_artists.py:401-417 | the search asks for `min(limit * 3, 150)` artists, and the new ones are selected from its results |
| CollectArtists.NewArtistsMeaning | flow_metrics/scripts/collect_artists.py:401-417 | the new artists are, in search order, exactly the examined results the database lacks; never more than `limit`, and fewer only when every result was examined |
| CollectArtists.NewArtists | flow_metrics/scripts/collect_artists.py:401-417 | the new-artist selection; what it keeps is stated by `CollectArtists.NewArtistsMeaning` |
| CollectArtists.CollectNewArtists | flow_metrics/scripts/collect_artists.py:397-457 | the main run: search, select the new artists, store one record per artist until one raises, appearances cut to 100 |
| GetArtistData.SearchHipHopArtists | scripts/get_artist_data.py:72-126 | this script's search is the genre loop alone, with six terms, page cap 50 and the whole-genre test |
| GetArtistData.SearchMeaning | scripts/get_artist_data.py:72-126 | at most `limit` artists, no id twice, each listing a hip-hop word as one of its genres |
| GetArtistData.ListsHipHop | scripts/get_artist_data.py:113 | this script's genre test: a hip-hop word is one of the genres; `GetArtistData.ListedIsMentioned` shows that it implies the collection script's test |
| GetArtistData.SubstringExtend | scripts/get_artist_data.py:113 | `p in s` survives text put before `s` |
| GetArtistData.SubstringAppend | scripts/get_artist_data.py:113 | `p in s` survives text put after `s` |
| GetArtistData.JoinHasPart | scripts/get_artist_data.py:113 | each genre occurs in the genres joined by spaces |
| GetArtistData.SubstringLower | scripts/get_artist_data.py:113 | lower-casing both sides keeps `p in s` |
| GetArtistData.ListedIsMentioned | scripts/get_artist_data.py:113 | an artist that passes this script's genre test passes the collection script's test (flow_metrics/scripts/collect_artists.py:146-149) |
| GetArtistData.MentionedNotListed | scripts/get_artist_data.py:113 | the converse fails: a genre "trap latino" passes the collection script's substring test but not this one |
| GetArtistData.StoreArtists | scripts/get_artist_data.py:363-393 | every artist of the search gets a record, appearances uncapped, until a record raises |

## Left out

- HTTP: `flow_metrics/http/client.py`, the `requests` sessions, headers, timeouts and status handling below the clients are not part of this model. Each service's answer is a parameter.
- The random `User-Agent` and browser headers of the lyrics scraper are left out; they do not affect its control flow.
- HTML parsing with BeautifulSoup is left out. Each page is replaced by the elements the scraper selects in it, given as a parameter, so the selectors are not checked.
- The base64 step of Spotify's Basic credentials is a library call and is left out. Only the `id:secret` string it encodes is modelled.
- pydantic's field-by-field validation of provider records is left out. Where a client validates a payload (Musixmatch's responses, MusicBrainz's related artists), the validation is a parameter that returns the record or the validation error, and the client raises that error as the source does. For the MusicBrainz search and browse answers, a validation failure is one kind of failure of the service's answer. Only `FixMusicBrainzModels` models the conversion of fields.
- MongoDB is left out. The "already stored" test is a parameter; the count printed before and after a run, `convert_model_to_dict` and the upsert semantics of `store_artist_data` are not modelled.
- Console output, progress bars, argument parsing, `load_dotenv` and environment variables are left out, since they do not change any result.
- `time.sleep` and `time.time` are replaced by a simulated clock. Sleeps are exact, and the time after a sleep is the time before it plus the pause.
- `random.uniform(0.1, 1.0)` is a parameter constrained to that interval.
- Lower-casing, `\w`, `\d`, `[a-zA-Z0-9]` and `re.IGNORECASE` are modelled on ASCII only. Python's Unicode case mapping is left out.
- Vocabulary.IsAlphaWord tests ASCII letters only. Python's `str.isalpha` accepts every Unicode letter, so a token such as "café" counts as a word in the source but not in the model, and every count of `Vocabulary.AnalyzeLyrics` can differ for such lyrics.
- Floating-point arithmetic is modelled with exact reals; rounding is left out.
- difflib's `SequenceMatcher` is reduced to its count of matching characters. That count is a parameter bounded by both lengths, and it equals the length when a text is compared with itself below 200 characters. Its "popular element" heuristic for longer texts is left out, and so is any claim that the ratio is symmetric.
- NLTK's tokenizer, lemmatizer, stop-word corpus and corpus downloads are parameters.
- The MusicBrainz lookups `get_artist`, `get_release`, `get_release_group`, `get_recording` and `search_works`, and Spotify's `get_artist`, `get_album`, `get_track` and `get_related_artists`, do no more than send one request. They are represented by the request and parameter builders only.
- Descriptive record fields that no modelled logic reads (images other than the first, URLs, track details in `top_tracks`) are omitted from the datatypes.
- `calculate_vocabulary_richness` indexes the two metrics dictionaries by key, so a missing `type_token_ratio` raises `KeyError`. Vocabulary.VocabularyRichness takes complete metrics records, so that error is not modelled.
- FixMusicBrainzModels.Build does not validate the elements of the release-group list; they are kept as raw values.
- FixMusicBrainzModels.Build reads an integer from a string only when the string is an optional sign followed by decimal digits. Other spellings pydantic may accept (surrounding whitespace, underscores between digits) are not modelled.
- LyricsScraper.GetSongLyrics and LyricsScraper.GetArtistLyrics do not thread the rate limiter's clock through their requests. Their pages come from an oracle keyed by URL, so the spacing of their requests is proved only for `Scraper.MakeRequest` itself.
- LyricsScraper.SearchAzlyrics, LyricsScraper.SearchLyricsCom and LyricsScraper.SearchMetrolyrics give nothing where the source catches an exception and returns `None`. A parser failure is one such outcome.
- LyricsScraper.GetArtistLyrics never produces the "Failed to get artist lyrics" wrap. In the model every error that reaches that handler is already a `LyricsScraperError`, so the wrap cannot happen.
- Spotify.FetchAllArtistAlbums and the other Spotify pagination methods do not re-run the token check that every page request makes. That check is modelled once, in `Spotify.Client.EnsureAuth`.
- Musixmatch's `_make_request` writes `apikey` into the caller's own dictionary. Musixmatch.WithKey returns a new map, so that aliasing is not modelled.
- Cleanup.CleanupArtist requires a well-formed document: the identity fields present, and release lists of objects whose release dates are strings. This excludes every input for which `cleanup_artist` raises (a missing identity field, a release that is not an object, dates that cannot be compared), so those raising paths are not modelled. It also excludes some inputs that do not raise: `sorted` orders a list whose dates are all numbers (cleanup_artists.py:95-99), but the model's sort key is a string, so such lists are outside the model.
