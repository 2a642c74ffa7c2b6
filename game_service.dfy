/**
 * `GameService` (apps/api/src/application/game_service.rs): creating a game
 * with a four-character join code, joining it while it is WAITING (with an
 * initial 1500 from the bank), leaving it, the host's updates (starting the
 * game rolls initiative and fixes the turn order), and passing the turn around
 * that order. One game is modelled: its record is the `Session` object and
 * its participants live in the game's `Ledger`. The random draws (the code's
 * characters, the initiative rolls) are nondeterministic choices, and the
 * clock reading is a parameter.
 */
module GameService {
  import opened Base
  import opened TransactionRepository
  import opened CardRepository
  import opened TransactionService
  import opened Sorting
  import GameStatus

  const NotOpen: string := "Game is not open for joining"
  const AlreadyJoined: string := "User is already a participant in this game"
  const CannotLeave: string := "Cannot leave chunks of a finished game"
  const OnlyHost: string := "Only host can update game"
  const NoParticipants: string := "Cannot start game with no participants"
  const NotYourTurn: string := "It is not your turn!"
  const NoTurnOrder: string := "No turn order defined"
  const NotInTurnOrder: string := "User not in turn order"

  const DefaultName: string := "New Monopoly Game"
  const InitialFunding: string := "Initial Funding"
  const StartingMoney: Money := 1500.0

  datatype GameSession = GameSession(
    code: string,
    host: Uid,
    name: string,
    status: string,
    createdAt: Option<int>,
    endedAt: Option<int>,
    currentTurn: Option<Uid>,
    turnOrder: Option<seq<Uid>>)

  /** The characters `rand::distr::Alphanumeric` samples from. */
  predicate IsAlphanumeric(c: char) {
    'a' <= c <= 'z' || 'A' <= c <= 'Z' || '0' <= c <= '9'
  }

  /** ASCII `to_uppercase`. */
  function Upper(c: char): char {
    if 'a' <= c <= 'z' then (c as int - 'a' as int + 'A' as int) as char else c
  }

  function Uppercase(s: string): (r: string)
    ensures |r| == |s|
  {
    if s == [] then [] else [Upper(s[0])] + Uppercase(s[1..])
  }

  /** What a join code is made of: upper-case letters and digits. */
  predicate IsCodeChar(c: char) {
    'A' <= c <= 'Z' || '0' <= c <= '9'
  }

  predicate NoDup<T(==)>(s: seq<T>) {
    forall i, j :: 0 <= i < j < |s| ==> s[i] != s[j]
  }

  /** The participants in the order `find_by_game_id` returns them: each participant's user once. */
  ghost predicate ListsParticipants(L: LedgerState, members: seq<Uid>) {
    NoDup(members) && forall u :: u in members <==> ParticipantOf(L.participants, u).Some?
  }

  // ---- Initiative ----

  /** The `(user, roll)` pairs the initiative loop pushes, one per participant. */
  function Zip(members: seq<Uid>, rolls: seq<int>): (z: seq<(Uid, int)>)
    ensures |z| == if |members| <= |rolls| then |members| else |rolls|
    ensures forall i :: 0 <= i < |z| ==> z[i] == (members[i], rolls[i])
  {
    if members == [] || rolls == [] then [] else [(members[0], rolls[0])] + Zip(members[1..], rolls[1..])
  }

  /** `sort_by(|a, b| b.1.cmp(&a.1))`: a stable sort on the negated roll is a stable descending sort on the roll. */
  function NegRoll(e: (Uid, int)): int {
    -e.1
  }

  function Users(s: seq<(Uid, int)>): (r: seq<Uid>)
    ensures |r| == |s| && forall i :: 0 <= i < |s| ==> r[i] == s[i].0
  {
    if s == [] then [] else [s[0].0] + Users(s[1..])
  }

  /** The turn order `update_game` computes from the participants and their rolls. */
  function Initiative(members: seq<Uid>, rolls: seq<int>): seq<Uid> {
    Users(SortBy(Zip(members, rolls), NegRoll))
  }

  // ---- Specifications of the operations ----

  function NewGame(host: Uid, code: string, now: int): GameSession {
    GameSession(code, host, DefaultName, GameStatus.ToString(GameStatus.WAITING), Some(now), None, None, None)
  }

  /** `join_game`: a participant row with balance 0, then 1500 from the bank. */
  ghost function AfterJoin(G: GameSession, L: LedgerState, user: Uid): (LedgerState, Result<Pid>) {
    if G.status != GameStatus.ToString(GameStatus.WAITING) then (L, Err(NotOpen))
    else if ParticipantOf(L.participants, user).Some? then (L, Err(AlreadyJoined))
    else
      var (L1, p) := AfterAdd(L, user, 0.0);
      (AfterTransfer(L1, Transaction(None, Some(p), StartingMoney, Some(InitialFunding))).0, Ok(p))
  }

  /** `leave_game`. */
  ghost function AfterLeave(G: GameSession, L: LedgerState, user: Uid): (LedgerState, Result<()>) {
    if G.status == GameStatus.ToString(GameStatus.FINISHED) then (L, Err(CannotLeave))
    else (AfterRemove(L, user), Ok(()))
  }

  /** Whether an update by `user` starts the game: the host switching a game that is not ACTIVE to ACTIVE. */
  predicate Starts(G: GameSession, user: Uid, status: Option<string>) {
    G.host == user && status == Some(GameStatus.ToString(GameStatus.ACTIVE)) && G.status != GameStatus.ToString(GameStatus.ACTIVE)
  }

  /** `update_game`, given the participants as listed and the rolls drawn for them. */
  function AfterUpdate(G: GameSession, members: seq<Uid>, user: Uid, name: Option<string>, status: Option<string>,
                       rolls: seq<int>, now: int): Result<GameSession>
  {
    if G.host != user then Err(OnlyHost)
    else
      var G1 := if name.Some? then G.(name := name.value) else G;
      match status
      case None => Ok(G1)
      case Some(s) =>
        var starting := s == GameStatus.ToString(GameStatus.ACTIVE) && G1.status != GameStatus.ToString(GameStatus.ACTIVE);
        if starting && members == [] then Err(NoParticipants)
        else
          var G2 := if starting then
                      var order := Initiative(members, rolls);
                      G1.(turnOrder := Some(order), currentTurn := if order == [] then None else Some(order[0]))
                    else G1;
          var G3 := G2.(status := s);
          Ok(if s == GameStatus.ToString(GameStatus.FINISHED) then G3.(endedAt := Some(now)) else G3)
  }

  /** `list.iter().position(|u| *u == user_id)`: the first index holding `u`. */
  function IndexOf(list: seq<Uid>, u: Uid): (r: Option<nat>)
    ensures r.Some? ==> r.value < |list| && list[r.value] == u && forall k :: 0 <= k < r.value ==> list[k] != u
    ensures r.None? <==> u !in list
  {
    if list == [] then None
    else if list[0] == u then Some(0)
    else match IndexOf(list[1..], u)
      case None => None
      case Some(k) => Some(k + 1)
  }

  /** `end_turn`. */
  function AfterEndTurn(G: GameSession, user: Uid): Result<GameSession> {
    if G.currentTurn != Some(user) then Err(NotYourTurn)
    else match G.turnOrder
      case None => Err(NoTurnOrder)
      case Some(list) =>
        match IndexOf(list, user)
        case None => Err(NotInTurnOrder)
        case Some(idx) => Ok(G.(currentTurn := Some(list[(idx + 1) % |list|])))
  }

  /** The game record; the game id is implicit. */
  class Session {
    var game: GameSession

    constructor (g: GameSession)
      ensures game == g
    {
      game := g;
    }
  }

  // ---- Operations ----

  /** Four alphanumerics drawn at random, then upper-cased. */
  method GenerateCode() returns (code: string)
    ensures |code| == 4 && forall i :: 0 <= i < |code| ==> IsCodeChar(code[i])
  {
    var raw := "";
    while |raw| < 4
      invariant |raw| <= 4
      invariant forall i :: 0 <= i < |raw| ==> IsAlphanumeric(raw[i])
    {
      assert IsAlphanumeric('A');
      var c :| IsAlphanumeric(c);
      raw := raw + [c];
    }
    UppercaseCode(raw);
    code := Uppercase(raw);
  }

  method JoinGame(session: Session, ledger: Ledger, cards: CardTables, user: Uid) returns (r: Result<Pid>)
    requires ledger.Valid()
    modifies ledger
    ensures ledger.Valid()
    ensures (ledger.State(), r) == AfterJoin(session.game, old(ledger.State()), user)
  {
    if session.game.status != GameStatus.ToString(GameStatus.WAITING) {
      return Err(NotOpen);
    }
    var existing := ledger.FindParticipant(user);
    if existing.Some? {
      return Err(AlreadyJoined);
    }
    var p := ledger.AddParticipant(user, 0.0);
    ghost var L1 := ledger.State();
    var _, h := Transfer(ledger, cards, None, Some(p), StartingMoney, Some(InitialFunding));
    OnlyBankPaymentsRouted(L1, h, None, Some(p), StartingMoney, Some(InitialFunding));
    r := Ok(p);
  }

  /**
   * `create_game`: a WAITING game with a fresh code and an empty jackpot, joined
   * by its host, whose 1500 arrive as the game's first record, from the bank.
   */
  method CreateGame(cards: CardTables, host: Uid, now: int) returns (session: Session, ledger: Ledger, r: Result<GameSession>)
    ensures fresh(session) && fresh(ledger) && ledger.Valid()
    ensures r.Ok? && r.value == session.game && session.game == NewGame(host, session.game.code, now)
    ensures |session.game.code| == 4 && forall i :: 0 <= i < 4 ==> IsCodeChar(session.game.code[i])
    ensures ledger.State() == AfterJoin(session.game, LedgerState(map[], 0.0, map[], 0, 0), host).0
    ensures ledger.jackpot == 0.0 && ledger.participants.Keys == {0} && ledger.participants[0] == Participant(host, StartingMoney)
    ensures ledger.transactions == map[0 := Transaction(None, Some(0), StartingMoney, Some(InitialFunding))]
    ensures ledger.nextTx == 1 && ledger.nextPid == 1
  {
    var code := GenerateCode();
    session := new Session(NewGame(host, code, now));
    ledger := new Ledger();
    var _ := JoinGame(session, ledger, cards, host);
    r := Ok(session.game);
  }

  method LeaveGame(session: Session, ledger: Ledger, user: Uid) returns (r: Result<()>)
    requires ledger.Valid()
    modifies ledger
    ensures ledger.Valid()
    ensures (ledger.State(), r) == AfterLeave(session.game, old(ledger.State()), user)
  {
    if session.game.status == GameStatus.ToString(GameStatus.FINISHED) {
      return Err(CannotLeave);
    }
    ledger.RemoveParticipant(user);
    r := Ok(());
  }

  /**
   * `update_game`. `members` is the participant list the query returns; a
   * roll in 2..12 is drawn for each, and the rolls are returned so that the
   * outcome can be stated.
   */
  method UpdateGame(session: Session, ledger: Ledger, members: seq<Uid>, user: Uid, name: Option<string>,
                    status: Option<string>, now: int)
    returns (r: Result<GameSession>, ghost rolls: seq<int>)
    requires ListsParticipants(ledger.State(), members)
    modifies session
    ensures |rolls| == (if Starts(old(session.game), user, status) then |members| else 0)
    ensures forall i :: 0 <= i < |rolls| ==> 2 <= rolls[i] <= 12
    ensures r == AfterUpdate(old(session.game), members, user, name, status, rolls, now)
    ensures session.game == if r.Ok? then r.value else old(session.game)
  {
    rolls := [];
    var game := session.game;
    if game.host != user {
      return Err(OnlyHost), rolls;
    }
    if name.Some? {
      game := game.(name := name.value);
    }
    if status.Some? {
      var s := status.value;
      if s == GameStatus.ToString(GameStatus.ACTIVE) && game.status != GameStatus.ToString(GameStatus.ACTIVE) {
        if |members| == 0 {
          return Err(NoParticipants), rolls;
        }
        var initiatives: seq<(Uid, int)> := [];
        var i := 0;
        while i < |members|
          invariant 0 <= i <= |members| && |rolls| == i
          invariant forall k :: 0 <= k < i ==> 2 <= rolls[k] <= 12
          invariant initiatives == Zip(members[..i], rolls)
        {
          var roll :| 2 <= roll <= 12;
          ZipSnoc(members[..i], rolls, members[i], roll);
          assert members[..i + 1] == members[..i] + [members[i]];
          initiatives := initiatives + [(members[i], roll)];
          rolls := rolls + [roll];
          i := i + 1;
        }
        assert members[..i] == members;
        var order := Users(SortBy(initiatives, NegRoll));
        SortByPermutes(initiatives, NegRoll);
        game := game.(turnOrder := Some(order), currentTurn := Some(order[0]));
      }
      game := game.(status := s);
      if s == GameStatus.ToString(GameStatus.FINISHED) {
        game := game.(endedAt := Some(now));
      }
    }
    session.game := game;
    r := Ok(game);
  }

  method EndTurn(session: Session, user: Uid) returns (r: Result<GameSession>)
    modifies session
    ensures r == AfterEndTurn(old(session.game), user)
    ensures session.game == if r.Ok? then r.value else old(session.game)
  {
    var game := session.game;
    if game.currentTurn != Some(user) {
      return Err(NotYourTurn);
    }
    if game.turnOrder.None? {
      return Err(NoTurnOrder);
    }
    var list := game.turnOrder.value;
    var idx := IndexOf(list, user);
    if idx.None? {
      return Err(NotInTurnOrder);
    }
    var next := list[(idx.value + 1) % |list|];
    game := game.(currentTurn := Some(next));
    session.game := game;
    r := Ok(game);
  }

  // ---- Properties ----

  lemma {:induction false} UppercaseCode(s: string)
    requires forall i :: 0 <= i < |s| ==> IsAlphanumeric(s[i])
    ensures forall i :: 0 <= i < |s| ==> IsCodeChar(Uppercase(s)[i])
  {
    if s != [] {
      UppercaseCode(s[1..]);
      forall i | 0 <= i < |s| ensures IsCodeChar(Uppercase(s)[i]) {
        if i > 0 {
          assert Uppercase(s)[i] == Uppercase(s[1..])[i - 1];
          assert s[1..][i - 1] == s[i];
        }
      }
    }
  }

  lemma ZipSnoc(members: seq<Uid>, rolls: seq<int>, u: Uid, roll: int)
    requires |members| == |rolls|
    ensures Zip(members + [u], rolls + [roll]) == Zip(members, rolls) + [(u, roll)]
  {
  }

  /** Only a WAITING game takes new participants, and each user joins a game once. */
  lemma JoinGuards(G: GameSession, L: LedgerState, user: Uid)
    ensures AfterJoin(G, L, user).1.Ok? <==>
              G.status == "WAITING" && ParticipantOf(L.participants, user).None?
  {
  }

  /**
   * A successful join adds the user under a fresh participant id with exactly
   * 1500, changes no other balance and leaves the jackpot alone, since the
   * money comes from the bank.
   */
  lemma JoinFunds(G: GameSession, L: LedgerState, user: Uid)
    requires TransactionRepository.Wf(L)
    requires AfterJoin(G, L, user).1.Ok?
    ensures var (L', r) := AfterJoin(G, L, user);
            r.value == L.nextPid && r.value !in L.participants &&
            L'.participants == L.participants[r.value := Participant(user, StartingMoney)] &&
            L'.jackpot == L.jackpot &&
            ParticipantOf(L'.participants, user) == Some(r.value)
  {
    var (L', r) := AfterJoin(G, L, user);
    assert TransactionRepository.Wf(AfterAdd(L, user, 0.0).0);
    ParticipantOfUnique(AfterAdd(L, user, 0.0).0, r.value);
    assert L'.participants[r.value].user == user;
  }

  /** Leaving fails only in a FINISHED game, and removes the user's participant row. */
  lemma LeaveRemoves(G: GameSession, L: LedgerState, user: Uid)
    ensures var (L', r) := AfterLeave(G, L, user);
            (r.Err? <==> G.status == "FINISHED") &&
            (r.Ok? ==> ParticipantOf(L'.participants, user).None? &&
                       forall p :: p in L.participants && L.participants[p].user != user ==> p in L'.participants && L'.participants[p] == L.participants[p])
  {
  }

  /** Only the host updates the game; the new status is whatever string was given, FINISHED also stamping `ended_at`. */
  lemma UpdateByHost(G: GameSession, members: seq<Uid>, user: Uid, name: Option<string>, status: Option<string>, rolls: seq<int>, now: int)
    ensures var r := AfterUpdate(G, members, user, name, status, rolls, now);
            (G.host != user ==> r == Err(OnlyHost)) &&
            (r.Ok? ==> r.value.host == G.host && r.value.code == G.code &&
                       r.value.status == (if status.Some? then status.value else G.status) &&
                       r.value.name == (if name.Some? then name.value else G.name) &&
                       r.value.endedAt == (if status == Some("FINISHED") then Some(now) else G.endedAt))
  {
  }

  lemma {:induction false} UsersAppend(a: seq<(Uid, int)>, b: seq<(Uid, int)>)
    ensures Users(a + b) == Users(a) + Users(b)
    decreases |a|
  {
    if a == [] {
      assert a + b == b;
    } else {
      assert (a + b)[0] == a[0];
      assert (a + b)[1..] == a[1..] + b;
      UsersAppend(a[1..], b);
    }
  }

  /** The stable sort only reorders the `(user, roll)` pairs, so the users it lists are the same multiset. */
  lemma {:induction false} UsersPermute(s: seq<(Uid, int)>, t: seq<(Uid, int)>)
    requires multiset(s) == multiset(t)
    ensures multiset(Users(s)) == multiset(Users(t))
    decreases |s|
  {
    if s == [] {
      assert |t| == |multiset(t)| == 0;
    } else {
      var x := s[0];
      assert x in multiset(t);
      var j :| 0 <= j < |t| && t[j] == x;
      var t' := t[..j] + t[j + 1..];
      RemoveOne(s, t, j);
      assert t == t[..j] + [x] + t[j + 1..];
      assert s == [x] + s[1..];
      UsersPermute(s[1..], t');
      UsersAppend(t[..j] + [x], t[j + 1..]);
      UsersAppend(t[..j], [x]);
      UsersAppend(t[..j], t[j + 1..]);
      UsersAppend([x], s[1..]);
    }
  }

  /** The turn order lists every participant exactly as often as the participant list does: it is a permutation. */
  lemma InitiativePermutes(members: seq<Uid>, rolls: seq<int>)
    requires |rolls| == |members|
    ensures multiset(Initiative(members, rolls)) == multiset(members)
  {
    var z := Zip(members, rolls);
    SortByPermutes(z, NegRoll);
    UsersPermute(SortBy(z, NegRoll), z);
    assert Users(z) == members;
  }

  /** The order runs from the highest roll down, so its head rolled at least as high as everyone. */
  lemma InitiativeDescending(members: seq<Uid>, rolls: seq<int>)
    requires |rolls| == |members|
    ensures var sorted := SortBy(Zip(members, rolls), NegRoll);
            (forall i, j :: 0 <= i < j < |sorted| ==> sorted[i].1 >= sorted[j].1) &&
            (|sorted| > 0 ==> forall i :: 0 <= i < |rolls| ==> rolls[i] <= sorted[0].1)
  {
    var z := Zip(members, rolls);
    var sorted := SortBy(z, NegRoll);
    SortByPermutes(z, NegRoll);
    forall i, j | 0 <= i < j < |sorted| ensures sorted[i].1 >= sorted[j].1 {
      assert NegRoll(sorted[i]) <= NegRoll(sorted[j]);
    }
    if |sorted| > 0 {
      forall i | 0 <= i < |rolls| ensures rolls[i] <= sorted[0].1 {
        assert z[i] in multiset(sorted);
        var j :| 0 <= j < |sorted| && sorted[j] == z[i];
      }
    }
  }

  /** Participants with equal rolls keep the order in which they were listed. */
  lemma InitiativeStable(members: seq<Uid>, rolls: seq<int>, roll: int)
    ensures WithKey(SortBy(Zip(members, rolls), NegRoll), NegRoll, -roll) == WithKey(Zip(members, rolls), NegRoll, -roll)
  {
    SortByStable(Zip(members, rolls), NegRoll, -roll);
  }

  /** Starting the game sets the status to ACTIVE, the turn order to the initiative order and the first turn to its head. */
  lemma StartSetsTurnOrder(G: GameSession, members: seq<Uid>, user: Uid, name: Option<string>, rolls: seq<int>, now: int)
    requires Starts(G, user, Some("ACTIVE")) && members != [] && |rolls| == |members|
    ensures var r := AfterUpdate(G, members, user, name, Some("ACTIVE"), rolls, now);
            var order := Initiative(members, rolls);
            r.Ok? && r.value.status == "ACTIVE" && |order| == |members| &&
            r.value.turnOrder == Some(order) && r.value.currentTurn == Some(order[0])
  {
    SortByPermutes(Zip(members, rolls), NegRoll);
  }

  /** Starting a game without participants fails. */
  lemma StartNeedsParticipants(G: GameSession, user: Uid, name: Option<string>, rolls: seq<int>, now: int)
    requires Starts(G, user, Some("ACTIVE"))
    ensures AfterUpdate(G, [], user, name, Some("ACTIVE"), rolls, now) == Err(NoParticipants)
  {
  }

  /** With distinct users in the order, the holder of the turn at position `i` passes it to position `i + 1`, wrapping around. */
  lemma EndTurnAdvances(G: GameSession, order: seq<Uid>, i: nat)
    requires G.turnOrder == Some(order) && NoDup(order) && i < |order| && G.currentTurn == Some(order[i])
    ensures AfterEndTurn(G, order[i]) == Ok(G.(currentTurn := Some(order[(i + 1) % |order|])))
  {
    assert IndexOf(order, order[i]) == Some(i);
  }

  /** Only the user holding the turn can end it. */
  lemma EndTurnOnlyByHolder(G: GameSession, user: Uid)
    ensures AfterEndTurn(G, user).Ok? ==> G.currentTurn == Some(user) && G.turnOrder.Some? && user in G.turnOrder.value
  {
  }

  /** `k` turns in a row, each ended by the player holding it. */
  function EndTurns(G: GameSession, k: nat): GameSession
    decreases k
  {
    if k == 0 then G
    else match G.currentTurn
      case None => G
      case Some(u) =>
        match AfterEndTurn(G, u)
        case Err(_) => G
        case Ok(G') => EndTurns(G', k - 1)
  }

  /** The position reached from `i` after `k` steps of `(idx + 1) % len`. */
  function Advance(i: nat, k: nat, n: nat): (r: nat)
    requires i < n
    ensures r < n
    decreases k
  {
    if k == 0 then i else Advance((i + 1) % n, k - 1, n)
  }

  lemma {:induction false} AdvanceWithin(i: nat, k: nat, n: nat)
    requires i + k < n
    ensures Advance(i, k, n) == i + k
    decreases k
  {
    if k > 0 {
      assert (i + 1) % n == i + 1;
      AdvanceWithin(i + 1, k - 1, n);
    }
  }

  lemma {:induction false} AdvanceWraps(i: nat, k: nat, n: nat)
    requires i < n <= i + k
    ensures Advance(i, k, n) == Advance(0, i + k - n, n)
    decreases k
  {
    if i + 1 == n {
      assert (i + 1) % n == 0;
    } else {
      assert (i + 1) % n == i + 1;
      AdvanceWraps(i + 1, k - 1, n);
    }
  }

  /** After `k` turns the turn has moved `k` places around the order, wrapping at the end. */
  lemma {:induction false} TurnsRotate(G: GameSession, order: seq<Uid>, i: nat, k: nat)
    requires G.turnOrder == Some(order) && NoDup(order) && i < |order| && G.currentTurn == Some(order[i])
    ensures EndTurns(G, k).turnOrder == Some(order)
    ensures EndTurns(G, k).currentTurn == Some(order[Advance(i, k, |order|)])
    decreases k
  {
    if k > 0 {
      EndTurnAdvances(G, order, i);
      var G' := G.(currentTurn := Some(order[(i + 1) % |order|]));
      assert EndTurns(G, k) == EndTurns(G', k - 1);
      TurnsRotate(G', order, (i + 1) % |order|, k - 1);
    }
  }

  /** After as many turns as there are players, the turn is back with the player who held it. */
  lemma FullRoundReturns(G: GameSession, order: seq<Uid>, i: nat)
    requires G.turnOrder == Some(order) && NoDup(order) && i < |order| && G.currentTurn == Some(order[i])
    ensures EndTurns(G, |order|).currentTurn == G.currentTurn
  {
    TurnsRotate(G, order, i, |order|);
    AdvanceWraps(i, |order|, |order|);
    AdvanceWithin(0, i, |order|);
  }
}
