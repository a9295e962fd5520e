/**
 * The rules of the encrypted rock-paper-scissors screen
 * (packages/miniapp/src/components/EncryptedRPS.tsx): the outcome of a game
 * against the CPU, the CPU game's state cells, the contract calls built for
 * creating and joining a game, and what the game panel shows.
 */
module Rps {
  import opened Wrappers

  // ---------------------------------------------------------------------------
  // Moves and outcomes

  /** Move ids, as in the MOVES table. */
  const Rock: int := 0
  const Paper: int := 1
  const Scissors: int := 2

  predicate IsMove(m: int) {
    0 <= m <= 2
  }

  function MoveName(m: int): (name: string)
    requires IsMove(m)
    ensures m == Rock ==> name == "Rock"
    ensures m == Paper ==> name == "Paper"
    ensures m == Scissors ==> name == "Scissors"
  {
    if m == Rock then "Rock" else if m == Paper then "Paper" else "Scissors"
  }

  /** Distinct move ids are shown under distinct names. */
  lemma MoveNamesDistinct(m1: int, m2: int)
    requires IsMove(m1) && IsMove(m2) && m1 != m2
    ensures MoveName(m1) != MoveName(m2)
  {
  }

  datatype GameResult = Win | Lose | Draw

  /** The rules of the game, stated independently of the arithmetic:
      paper covers rock, scissors cut paper, rock breaks scissors. */
  predicate Beats(a: int, b: int) {
    || (a == Paper && b == Rock)
    || (a == Scissors && b == Paper)
    || (a == Rock && b == Scissors)
  }

  function Abs(x: int): nat {
    if x < 0 then -x else x
  }

  /** JavaScript's `%`: the remainder of division truncated toward zero, so it
      takes the sign of the dividend (Dafny's own `%` never goes negative). */
  function TruncRem(a: int, b: int): (r: int)
    requires b > 0
    ensures a >= 0 ==> 0 <= r < b
    ensures a < 0 ==> -b < r <= 0
    ensures Abs(r) == Abs(a) % b
  {
    if a >= 0 then a % b else -((-a) % b)
  }

  /** `(selectedMove - cpuMove + 3) % 3`. */
  function Diff(player: int, cpu: int): (d: int)
    ensures IsMove(player) && IsMove(cpu) ==> 0 <= d < 3 && d == (player - cpu) % 3
  {
    TruncRem(player - cpu + 3, 3)
  }

  /** The if-chain of `playAgainstCPU`: 0 is a draw, 1 a win, anything else a loss. */
  function Outcome(player: int, cpu: int): (r: GameResult)
    ensures IsMove(player) && IsMove(cpu) ==> (r == Draw <==> player == cpu)
    ensures IsMove(player) && IsMove(cpu) ==> (r == Win <==> Beats(player, cpu))
    ensures IsMove(player) && IsMove(cpu) ==> (r == Lose <==> Beats(cpu, player))
  {
    var diff := Diff(player, cpu);
    if diff == 0 then Draw
    else if diff == 1 then Win
    else Lose
  }

  function Opposite(r: GameResult): GameResult {
    match r
    case Win => Lose
    case Lose => Win
    case Draw => Draw
  }

  /** Swapping the two moves swaps win and loss and keeps a draw. */
  lemma OutcomeSwap(player: int, cpu: int)
    requires IsMove(player) && IsMove(cpu)
    ensures Outcome(cpu, player) == Opposite(Outcome(player, cpu))
  {
  }

  /** Each move beats exactly one move, is beaten by exactly one move, and
      the move it beats is the one two steps ahead of it. */
  lemma EachMoveBeatsExactlyOne(m: int)
    requires IsMove(m)
    ensures (set c | 0 <= c <= 2 && Beats(m, c)) == {(m + 2) % 3}
    ensures (set c | 0 <= c <= 2 && Beats(c, m)) == {(m + 1) % 3}
    ensures |set c | 0 <= c <= 2 && Beats(m, c)| == 1
  {
  }

  // ---------------------------------------------------------------------------
  // The CPU game (`playAgainstCPU`)

  /** What `setCpuGameResult` stores (the proof fields are SDK data, not modelled). */
  datatype CpuGameResult = CpuGameResult(playerMove: int, cpuMove: int, result: GameResult)

  function ResultMessage(r: GameResult): (msg: string)
    ensures |msg| > 0
  {
    match r
    case Win => "🎉 You won against the CPU!"
    case Lose => "😢 CPU wins this round!"
    case Draw => "🤝 It's a draw!"
  }

  /** Each result announces itself with its own message. */
  lemma ResultMessagesDistinct(r1: GameResult, r2: GameResult)
    requires r1 != r2
    ensures ResultMessage(r1) != ResultMessage(r2)
  {
  }

  /** The CPU-game state cells of the screen. */
  class CpuGame {
    var selectedMove: Option<int>
    var isPlayingCpu: bool
    var cpuGameResult: Option<CpuGameResult>
    var successMessage: Option<string>
    /** Every value handed to `setIsPlayingCpu`, in order. */
    ghost var playingLog: seq<bool>

    /** A selected move is always one of the move ids. */
    ghost predicate Valid()
      reads this
    {
      selectedMove.Some? ==> IsMove(selectedMove.value)
    }

    constructor ()
      ensures Valid()
      ensures selectedMove == None && !isPlayingCpu
      ensures cpuGameResult == None && successMessage == None && playingLog == []
    {
      selectedMove := None;
      isPlayingCpu := false;
      cpuGameResult := None;
      successMessage := None;
      playingLog := [];
    }

    /** Clicking a move card: select it and clear the last CPU game's result. */
    method SelectMove(m: int)
      requires IsMove(m)
      modifies this`selectedMove, this`cpuGameResult
      ensures Valid()
      ensures selectedMove == Some(m) && cpuGameResult == None
      ensures isPlayingCpu == old(isPlayingCpu) && successMessage == old(successMessage)
      ensures playingLog == old(playingLog)
    {
      selectedMove := Some(m);
      cpuGameResult := None;
    }

    /** One game against the CPU. `cpuMove` stands for `Math.floor(Math.random() * 3)`;
        `encryptThrows` says whether one of the two `cofhejs.encrypt` calls throws. */
    method PlayAgainstCpu(cpuMove: int, encryptThrows: bool)
      requires Valid() && IsMove(cpuMove)
      modifies this
      ensures Valid()
      ensures selectedMove == old(selectedMove)
      ensures old(selectedMove).None? ==>
        && isPlayingCpu == old(isPlayingCpu) && playingLog == old(playingLog)
        && cpuGameResult == old(cpuGameResult) && successMessage == old(successMessage)
      ensures old(selectedMove).Some? ==>
        var player := old(selectedMove).value;
        && playingLog == old(playingLog) + [true, false]
        && !isPlayingCpu
        && cpuGameResult == (if encryptThrows then None
                             else Some(CpuGameResult(player, cpuMove, Outcome(player, cpuMove))))
        && successMessage == (if encryptThrows then old(successMessage)
                              else Some(ResultMessage(Outcome(player, cpuMove))))
    {
      if selectedMove.None? {
        return;
      }
      var player := selectedMove.value;
      isPlayingCpu := true;
      playingLog := playingLog + [true];
      cpuGameResult := None;
      if !encryptThrows {
        var diff := Diff(player, cpuMove);
        var result: GameResult;
        if diff == 0 {
          result := Draw;
        } else if diff == 1 {
          result := Win;
        } else {
          result := Lose;
        }
        cpuGameResult := Some(CpuGameResult(player, cpuMove, result));
        successMessage := Some(ResultMessage(result));
      }
      // finally
      isPlayingCpu := false;
      playingLog := playingLog + [false];
    }
  }

  // ---------------------------------------------------------------------------
  // Contract calls for creating and joining a game

  /** One element of `encrypt(...).data`. */
  datatype EncryptedInput = EncryptedInput(ctHash: int, securityZone: int, signature: seq<bv8>)

  /** What `cofhejs.encrypt` answers: a result whose `data` may be absent, or a throw. */
  datatype EncryptAnswer = Encrypted(data: Option<seq<EncryptedInput>>) | EncryptThrew

  /** `encryptedMove.data?.[0]`. */
  function FirstInput(data: Option<seq<EncryptedInput>>): (r: Option<EncryptedInput>)
    ensures r.Some? <==> data.Some? && |data.value| > 0
    ensures r.Some? ==> r.value == data.value[0]
  {
    if data.Some? && |data.value| > 0 then Some(data.value[0]) else None
  }

  datatype CallArg = EncryptedArg(input: Option<EncryptedInput>) | GameIdArg(gameId: string)

  datatype ContractCall = ContractCall(functionName: string, args: seq<CallArg>)

  /** What a `callsCallback` promise settles to: a list of calls, or a rejection. */
  datatype CallsResult = Calls(calls: seq<ContractCall>) | Rejected

  /** The create-game `callsCallback`. */
  function CreateGameCalls(selectedMove: Option<int>, answer: EncryptAnswer): (r: CallsResult)
    ensures selectedMove.None? ==> r == Calls([])
    ensures selectedMove.Some? ==> (r.Rejected? <==> answer.EncryptThrew?)
    ensures r.Calls? && r.calls != [] ==>
      && selectedMove.Some? && answer.Encrypted?
      && r.calls == [ContractCall("createGame", [EncryptedArg(FirstInput(answer.data))])]
  {
    if selectedMove.None? then Calls([])
    else match answer
      case EncryptThrew => Rejected
      case Encrypted(data) => Calls([ContractCall("createGame", [EncryptedArg(FirstInput(data))])])
  }

  /** The join-game `callsCallback`; an empty game id is falsy. */
  function JoinGameCalls(selectedMove: Option<int>, gameId: string, answer: EncryptAnswer): (r: CallsResult)
    ensures selectedMove.None? || gameId == "" ==> r == Calls([])
    ensures selectedMove.Some? && gameId != "" ==> (r.Rejected? <==> answer.EncryptThrew?)
    ensures r.Calls? && r.calls != [] ==>
      && selectedMove.Some? && gameId != "" && answer.Encrypted?
      && r.calls == [ContractCall("joinGame", [GameIdArg(gameId), EncryptedArg(FirstInput(answer.data))])]
  {
    if selectedMove.None? || gameId == "" then Calls([])
    else match answer
      case EncryptThrew => Rejected
      case Encrypted(data) =>
        Calls([ContractCall("joinGame", [GameIdArg(gameId), EncryptedArg(FirstInput(data))])])
  }

  /** The calls are non-empty exactly when the guard passes and encryption did not throw. */
  lemma CallsNonEmptyIff(selectedMove: Option<int>, gameId: string, answer: EncryptAnswer)
    ensures CreateGameCalls(selectedMove, answer).Calls?
      && CreateGameCalls(selectedMove, answer).calls != []
      <==> selectedMove.Some? && answer.Encrypted?
    ensures JoinGameCalls(selectedMove, gameId, answer).Calls?
      && JoinGameCalls(selectedMove, gameId, answer).calls != []
      <==> selectedMove.Some? && gameId != "" && answer.Encrypted?
  {
  }

  // ---------------------------------------------------------------------------
  // The game panel (`GameInfo`)

  /** `getGame` answers `[player1, player2, state, _, _]`; the last two are not read here. */
  datatype GameData = GameData(player1: string, player2: string, state: int)

  const ZeroAddress: string := "0x0000000000000000000000000000000000000000"

  const WaitingForReveal: int := 2

  /** `GameStateLabels[state]`, undefined outside the table. */
  function StatusLabel(state: int): (text: Option<string>)
    ensures text.Some? <==> 0 <= state < 4
    ensures state == WaitingForReveal ==> text == Some("Waiting for Reveal")
  {
    var labels := ["Waiting for Players", "Waiting for Player 2", "Waiting for Reveal", "Completed"];
    if 0 <= state < |labels| then Some(labels[state]) else None
  }

  function LowerChar(ch: char): char {
    if 'A' <= ch <= 'Z' then (ch as int - 'A' as int + 'a' as int) as char else ch
  }

  /** `toLowerCase()` on the ASCII letters that addresses use. */
  function Lower(s: string): (r: string)
    ensures |r| == |s|
    ensures forall i :: 0 <= i < |s| ==> r[i] == LowerChar(s[i])
  {
    if s == [] then [] else [LowerChar(s[0])] + Lower(s[1..])
  }

  /** Two strings are equal ignoring case exactly when they have the same
      length and agree letter by letter ignoring case. */
  lemma SameLowerIff(a: string, b: string)
    ensures Lower(a) == Lower(b) <==>
      |a| == |b| && forall i :: 0 <= i < |a| ==> LowerChar(a[i]) == LowerChar(b[i])
  {
  }

  lemma LowerIdempotent(s: string)
    ensures Lower(Lower(s)) == Lower(s)
  {
  }

  /** `address?.toLowerCase() === player.toLowerCase()`: false when no wallet is connected. */
  predicate IsSameAccount(address: Option<string>, player: string)
    ensures IsSameAccount(address, player) ==> address.Some? && |address.value| == |player|
    ensures address == Some(player) ==> IsSameAccount(address, player)
  {
    address.Some? && Lower(address.value) == Lower(player)
  }

  /** `isPlayer1 || isPlayer2`. */
  predicate IsPlayer(address: Option<string>, g: GameData)
    ensures address.None? ==> !IsPlayer(address, g)
    ensures address == Some(g.player1) || address == Some(g.player2) ==> IsPlayer(address, g)
  {
    IsSameAccount(address, g.player1) || IsSameAccount(address, g.player2)
  }

  /** `state === 2 && isPlayer`: the reveal-winner button. */
  predicate ShowsRevealButton(address: Option<string>, g: GameData)
    ensures ShowsRevealButton(address, g) ==> StatusLabel(g.state) == Some("Waiting for Reveal")
    ensures ShowsRevealButton(address, g) ==> IsPlayer(address, g)
  {
    g.state == WaitingForReveal && IsPlayer(address, g)
  }

  /** The Player 2 line: an exact comparison with the zero address. */
  predicate ShowsPlayer2(g: GameData)
    ensures |g.player2| != |ZeroAddress| ==> ShowsPlayer2(g)
    ensures Lower(g.player2) == Lower(ZeroAddress) && g.player2 != ZeroAddress ==> ShowsPlayer2(g)
  {
    g.player2 != ZeroAddress
  }

  /** Only the exact zero address hides the Player 2 line; the comparison,
      unlike the player test, is case-sensitive. */
  lemma Player2LineCases(player1: string, player2: string, state: int)
    ensures !ShowsPlayer2(GameData(player1, ZeroAddress, state))
    ensures player2 != ZeroAddress ==> ShowsPlayer2(GameData(player1, player2, state))
    ensures ShowsPlayer2(GameData(player1, "0X0000000000000000000000000000000000000000", state))
  {
  }

  /** The reveal button appears exactly when the game waits for the reveal and
      the connected address spells one of the two players' addresses, ignoring case. */
  lemma RevealButtonIff(address: Option<string>, g: GameData)
    ensures ShowsRevealButton(address, g) <==>
      && g.state == 2
      && address.Some?
      && ((|address.value| == |g.player1|
            && forall i :: 0 <= i < |g.player1| ==> LowerChar(address.value[i]) == LowerChar(g.player1[i]))
          || (|address.value| == |g.player2|
            && forall i :: 0 <= i < |g.player2| ==> LowerChar(address.value[i]) == LowerChar(g.player2[i])))
  {
  }

  /** A player is recognised however either side capitalises the address. */
  lemma IsPlayerIgnoresCase(a: string, b: string, g: GameData)
    requires Lower(a) == Lower(b)
    ensures IsPlayer(Some(a), g) <==> IsPlayer(Some(b), g)
    ensures IsSameAccount(Some(a), b)
  {
  }

  /** The connected player 1 of a game waiting for its reveal sees the button;
      without a wallet or in any other state nobody does. */
  lemma RevealButtonCases(address: Option<string>, g: GameData)
    ensures address == Some(g.player1) && g.state == 2 ==> ShowsRevealButton(address, g)
    ensures address == Some(g.player2) && g.state == 2 ==> ShowsRevealButton(address, g)
    ensures address.None? || g.state != 2 ==> !ShowsRevealButton(address, g)
  {
  }
}
