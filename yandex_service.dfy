/** The game's side of the platform SDK (YandexService.ts): the gameplay
    start/stop latch, the precedence of saved-data sources, leaderboard row
    mapping, and the local mock leaderboard used when no SDK is present.
    The SDK, storage and JSON parsing are inputs to the model. */
module YandexService {
  import opened Common

  datatype LeaderboardRow = LeaderboardRow(rank: int, score: int, name: string)

  /** A leaderboard entry as the SDK reports it; any field may be missing. */
  datatype LeaderboardEntry = LeaderboardEntry(rank: Option<int>, score: Option<int>, publicName: Option<string>)

  /** A call the service makes on the SDK's gameplay API. */
  datatype GameplayCall = GameplayStart | GameplayStop

  /** What the SDK offers for one leaderboard method: no such method, the
      method present but reported unavailable by `isAvailableMethod`, or
      present and available. */
  datatype LeaderboardApi = NoLeaderboardApi | ReportedUnavailable | LeaderboardAvailable

  // ---------------------------------------------------------------------
  // Saved-data precedence

  /** The value read for a key: the player's cloud data when present, then
      local storage, then the caller's fallback. */
  function LoadJson<T>(fromPlayer: Option<T>, fromStorage: Option<T>, fallback: T): (r: T)
    ensures fromPlayer.Some? ==> r == fromPlayer.value
    ensures fromPlayer.None? && fromStorage.Some? ==> r == fromStorage.value
    ensures fromPlayer.None? && fromStorage.None? ==> r == fallback
  {
    match fromPlayer
    case Some(v) => v
    case None =>
      match fromStorage
      case Some(v) => v
      case None => fallback
  }

  /** The storage read: the SDK's safe storage item when it is not null,
      otherwise the browser's local storage item; an empty or missing item
      reads as nothing, and so does a parse that fails or yields null. */
  function LoadFromStorage<T>(safeItem: Option<string>, localItem: Option<string>, parse: string -> Option<T>): (r: Option<T>)
    ensures safeItem.Some? && safeItem.value != "" ==> r == parse(safeItem.value)
    ensures safeItem == Some("") ==> r.None?
    ensures safeItem.None? && localItem.Some? && localItem.value != "" ==> r == parse(localItem.value)
    ensures safeItem.None? && (localItem.None? || localItem == Some("")) ==> r.None?
  {
    var raw := if safeItem.Some? then safeItem else localItem;
    match raw
    case None => None
    case Some(text) => if text == "" then None else parse(text)
  }

  // ---------------------------------------------------------------------
  // Leaderboard rows

  const DEFAULT_PLAYER_NAME: string := "Player"
  const MOCK_PLAYER_NAME: string := "You (mock)"
  const MOCK_SCORE_STEP: int := 120

  /** An SDK entry as a row: a missing rank becomes the position plus one,
      a missing score zero, and a missing or empty name "Player". */
  function MapLeaderboardEntry(entry: LeaderboardEntry, index: nat): (row: LeaderboardRow)
    ensures row.rank == (if entry.rank.Some? then entry.rank.value else index + 1)
    ensures row.score == (if entry.score.Some? then entry.score.value else 0)
    ensures row.name != ""
    ensures entry.publicName.Some? && entry.publicName.value != "" ==> row.name == entry.publicName.value
    ensures entry.publicName.None? || entry.publicName == Some("") ==> row.name == DEFAULT_PLAYER_NAME
  {
    LeaderboardRow(
      match entry.rank case Some(r) => r case None => index + 1,
      match entry.score case Some(s) => s case None => 0,
      match entry.publicName
      case Some(n) => if n != "" then n else DEFAULT_PLAYER_NAME
      case None => DEFAULT_PLAYER_NAME)
  }

  /** JavaScript's `array.slice(0, end)` for an integer `end`. */
  function SliceTo<T>(s: seq<T>, end: int): (r: seq<T>)
    ensures end >= 0 ==> |r| == Min(end, |s|)
    ensures end < 0 ==> |r| == Max(0, |s| + end)
    ensures forall i :: 0 <= i < |r| ==> r[i] == s[i]
  {
    if end >= 0 then s[..Min(end, |s|)] else s[..Max(0, |s| + end)]
  }

  /** The rows of a live leaderboard reply: the first `count` entries, mapped. */
  function MapEntries(entries: seq<LeaderboardEntry>, count: int): (rows: seq<LeaderboardRow>)
    ensures |rows| == |SliceTo(entries, count)|
    ensures forall i :: 0 <= i < |rows| ==> rows[i] == MapLeaderboardEntry(entries[i], i)
  {
    var kept := SliceTo(entries, count);
    seq(|kept|, i requires 0 <= i < |kept| => MapLeaderboardEntry(kept[i], i))
  }

  function DigitChar(d: nat): (c: char)
    requires d < 10
  {
    "0123456789"[d]
  }

  /** The decimal text of a natural number. */
  function NatToString(n: nat): (s: string)
    ensures |s| >= 1
    decreases n
  {
    if n < 10 then [DigitChar(n)] else NatToString(n / 10) + [DigitChar(n % 10)]
  }

  function BotName(idx: nat): string
  {
    "Bot " + NatToString(idx)
  }

  /** Row `i` (from zero) of the mock leaderboard: the stored score as the
      player's own first row when it is positive, otherwise bots whose
      scores fall by 120 per rank and never go below zero. */
  function MockRow(topScore: int, i: nat): (row: LeaderboardRow)
    ensures row.rank == i + 1
    ensures row.score >= 0
    ensures i == 0 && topScore > 0 ==> row == LeaderboardRow(1, topScore, MOCK_PLAYER_NAME)
    ensures i > 0 || topScore <= 0 ==> row.score == Max(0, topScore - (i + 1) * MOCK_SCORE_STEP)
  {
    if i == 0 && topScore > 0 then LeaderboardRow(1, topScore, MOCK_PLAYER_NAME)
    else LeaderboardRow(i + 1, Max(0, topScore - (i + 1) * MOCK_SCORE_STEP), BotName(i + 1))
  }

  /** The mock leaderboard: rows are appended until there are `max(1, count)`,
      then the list is cut to `count` as `slice(0, count)` does. */
  method MockLeaderboardRows(topScore: int, count: int) returns (rows: seq<LeaderboardRow>)
    ensures |rows| == Max(0, count)
    ensures forall i :: 0 <= i < |rows| ==> rows[i] == MockRow(topScore, i)
    ensures forall i :: 0 <= i < |rows| ==> rows[i].rank == i + 1 && rows[i].score >= 0
  {
    var mockRows: seq<LeaderboardRow> := [];
    if topScore > 0 {
      mockRows := mockRows + [LeaderboardRow(1, topScore, MOCK_PLAYER_NAME)];
    }
    while |mockRows| < Max(1, count)
      invariant |mockRows| <= Max(1, count)
      invariant forall i :: 0 <= i < |mockRows| ==> mockRows[i] == MockRow(topScore, i)
    {
      var idx := |mockRows| + 1;
      mockRows := mockRows + [LeaderboardRow(idx, Max(0, topScore - idx * MOCK_SCORE_STEP), BotName(idx))];
    }
    rows := SliceTo(mockRows, count);
  }

  /** The mock leaderboard keeps the best score written so far. */
  function MockScoreWrite(current: int, score: real): (next: int)
    ensures next >= current && next >= score.Floor
    ensures next == current || next == score.Floor
  {
    Max(current, score.Floor)
  }

  /** The score handed to the SDK: floored, never negative. */
  function SdkScore(score: real): (sent: nat)
    ensures score >= 0.0 ==> sent as real <= score < sent as real + 1.0
    ensures score < 0.0 ==> sent == 0
  {
    NonNegFloor(score)
  }

  // ---------------------------------------------------------------------
  // The service object

  /** Start and stop calls alternate, beginning with a start. */
  predicate Alternating(calls: seq<GameplayCall>)
  {
    forall i :: 0 <= i < |calls| ==> calls[i] == (if i % 2 == 0 then GameplayStart else GameplayStop)
  }

  /** Everything the service object holds, as one value. */
  datatype ServiceState = ServiceState(
    mockMode: bool,
    gameplayMarked: bool,
    gameplayCalls: seq<GameplayCall>,
    scoreApi: LeaderboardApi,
    entriesApi: LeaderboardApi,
    submittedScores: seq<int>,
    mockLeaderboardScore: int)

  /** The state after `markGameplayStart`. */
  function AfterGameplayStart(s: ServiceState): ServiceState
  {
    if s.mockMode || s.gameplayMarked then s
    else s.(gameplayMarked := true, gameplayCalls := s.gameplayCalls + [GameplayStart])
  }

  /** The state after `markGameplayStop`. */
  function AfterGameplayStop(s: ServiceState): ServiceState
  {
    if s.mockMode || !s.gameplayMarked then s
    else s.(gameplayMarked := false, gameplayCalls := s.gameplayCalls + [GameplayStop])
  }

  /** The state after `submitScore`. */
  function AfterSubmitScore(s: ServiceState, score: real): ServiceState
  {
    if s.mockMode || s.scoreApi == NoLeaderboardApi then
      s.(mockLeaderboardScore := MockScoreWrite(s.mockLeaderboardScore, score))
    else if s.scoreApi == ReportedUnavailable then s
    else s.(submittedScores := s.submittedScores + [SdkScore(score)])
  }

  class YandexService {
    var mockMode: bool
    var gameplayMarked: bool
    /** The gameplay API calls made so far, in order. */
    var gameplayCalls: seq<GameplayCall>
    /** What the SDK offers for `leaderboards.setScore`. */
    var scoreApi: LeaderboardApi
    /** What the SDK offers for `leaderboards.getEntries`. */
    var entriesApi: LeaderboardApi
    /** The scores sent to the SDK's `setScore`, in order. */
    var submittedScores: seq<int>
    /** The mock leaderboard's stored best score (a local-storage entry). */
    var mockLeaderboardScore: int

    ghost predicate Valid()
      reads this
    {
      Alternating(gameplayCalls) && (gameplayMarked <==> |gameplayCalls| % 2 == 1)
    }

    ghost function State(): ServiceState
      reads this
    {
      ServiceState(mockMode, gameplayMarked, gameplayCalls, scoreApi, entriesApi,
                   submittedScores, mockLeaderboardScore)
    }

    constructor (mockMode: bool, scoreApi: LeaderboardApi, entriesApi: LeaderboardApi, storedMockScore: int)
      ensures Valid()
      ensures this.mockMode == mockMode && this.scoreApi == scoreApi && this.entriesApi == entriesApi
      ensures !gameplayMarked && gameplayCalls == [] && submittedScores == []
      ensures mockLeaderboardScore == storedMockScore
    {
      this.mockMode := mockMode;
      this.scoreApi := scoreApi;
      this.entriesApi := entriesApi;
      gameplayMarked := false;
      gameplayCalls := [];
      submittedScores := [];
      mockLeaderboardScore := storedMockScore;
    }

    /** Falling back to mock mode when the SDK cannot be reached. */
    method EnableMockMode()
      requires Valid()
      modifies this
      ensures Valid() && mockMode
      ensures State() == old(State()).(mockMode := true)
    {
      mockMode := true;
    }

    method MarkGameplayStart()
      requires Valid()
      modifies this
      ensures Valid()
      ensures State() == AfterGameplayStart(old(State()))
      ensures old(mockMode) || old(gameplayMarked) ==>
        gameplayMarked == old(gameplayMarked) && gameplayCalls == old(gameplayCalls)
      ensures !old(mockMode) && !old(gameplayMarked) ==>
        gameplayMarked && gameplayCalls == old(gameplayCalls) + [GameplayStart]
      ensures mockMode == old(mockMode) && scoreApi == old(scoreApi) && entriesApi == old(entriesApi)
      ensures submittedScores == old(submittedScores) && mockLeaderboardScore == old(mockLeaderboardScore)
    {
      if mockMode || gameplayMarked {
        return;
      }
      gameplayMarked := true;
      gameplayCalls := gameplayCalls + [GameplayStart];
    }

    method MarkGameplayStop()
      requires Valid()
      modifies this
      ensures Valid()
      ensures State() == AfterGameplayStop(old(State()))
      ensures old(mockMode) || !old(gameplayMarked) ==>
        gameplayMarked == old(gameplayMarked) && gameplayCalls == old(gameplayCalls)
      ensures !old(mockMode) && old(gameplayMarked) ==>
        !gameplayMarked && gameplayCalls == old(gameplayCalls) + [GameplayStop]
      ensures !gameplayMarked || old(mockMode)
      ensures mockMode == old(mockMode) && scoreApi == old(scoreApi) && entriesApi == old(entriesApi)
      ensures submittedScores == old(submittedScores) && mockLeaderboardScore == old(mockLeaderboardScore)
    {
      if mockMode || !gameplayMarked {
        return;
      }
      gameplayMarked := false;
      gameplayCalls := gameplayCalls + [GameplayStop];
    }

    /** Reporting a score: to the mock leaderboard without a usable SDK,
        nowhere when the SDK reports the method unavailable, otherwise to
        the SDK (whose failures are swallowed). Only `setScore`'s
        availability is consulted. */
    method SubmitScore(score: real)
      requires Valid()
      modifies this
      ensures Valid()
      ensures State() == AfterSubmitScore(old(State()), score)
      ensures mockMode || scoreApi == NoLeaderboardApi ==>
        mockLeaderboardScore == MockScoreWrite(old(mockLeaderboardScore), score)
        && submittedScores == old(submittedScores)
      ensures !mockMode && scoreApi == ReportedUnavailable ==>
        mockLeaderboardScore == old(mockLeaderboardScore) && submittedScores == old(submittedScores)
      ensures !mockMode && scoreApi == LeaderboardAvailable ==>
        mockLeaderboardScore == old(mockLeaderboardScore) && submittedScores == old(submittedScores) + [SdkScore(score)]
      ensures mockLeaderboardScore >= old(mockLeaderboardScore)
      ensures mockMode == old(mockMode) && scoreApi == old(scoreApi) && entriesApi == old(entriesApi)
      ensures gameplayMarked == old(gameplayMarked) && gameplayCalls == old(gameplayCalls)
    {
      if mockMode || scoreApi == NoLeaderboardApi {
        mockLeaderboardScore := MockScoreWrite(mockLeaderboardScore, score);
        return;
      }
      if scoreApi == ReportedUnavailable {
        return;
      }
      submittedScores := submittedScores + [SdkScore(score)];
    }

    /** The top rows: the mock leaderboard without a usable SDK, nothing when
        the SDK reports the method unavailable or the request fails, and the
        mapped first `count` entries of the SDK's reply otherwise. Only
        `getEntries`' availability is consulted. */
    method GetLeaderboardTop(count: int, reply: Option<seq<LeaderboardEntry>>) returns (rows: seq<LeaderboardRow>)
      ensures mockMode || entriesApi == NoLeaderboardApi ==>
        |rows| == Max(0, count) && forall i :: 0 <= i < |rows| ==> rows[i] == MockRow(mockLeaderboardScore, i)
      ensures !mockMode && entriesApi == ReportedUnavailable ==> rows == []
      ensures !mockMode && entriesApi == LeaderboardAvailable ==>
        rows == (if reply.Some? then MapEntries(reply.value, count) else [])
    {
      if mockMode || entriesApi == NoLeaderboardApi {
        rows := MockLeaderboardRows(mockLeaderboardScore, count);
        return;
      }
      if entriesApi == ReportedUnavailable {
        return [];
      }
      rows := if reply.Some? then MapEntries(reply.value, count) else [];
    }
  }
}
