/**
 * The `GameManager` singleton and its state machine. The current state's
 * `UpdateState` runs every frame; `ChangeState` switches state and runs the
 * new state's `StartState` once. Clearing a stage advances the
 * (phase, stage) counter: five phases per stage. The manager also keeps the
 * list of spawned enemies. Key presses are parameters; scene loading is
 * recorded, not performed.
 */
module GameManager {
  import opened Wrappers

  /** The concrete `AbstractState`s. */
  datatype GameState = MainMenuState | PlayState | PlayStage | CompletedStage | LoadStage

  /** The keys `Input.GetKeyDown` reports this frame. */
  datatype Keys = Keys(e: bool, t: bool)

  /** Phases per stage. */
  const Phases := 5

  /** The (phase, stage) counter after clearing a phase: the next phase, or phase 1 of the next stage after phase 5. */
  function Advance(phase: int, stage: int): (r: (int, int))
    ensures r.1 == stage || r.1 == stage + 1
    ensures phase < Phases ==> r == (phase + 1, stage)
    ensures phase >= Phases ==> r == (1, stage + 1)
  {
    var p := phase + 1;
    if p > Phases then (1, stage + 1) else (p, stage)
  }

  /** How many phases precede `phase` of `stage`, counting from phase 1 of stage 0. */
  function Index(phase: int, stage: int): int
  {
    Phases * stage + phase - 1
  }

  predicate InRange(phase: int)
  {
    1 <= phase <= Phases
  }

  /** From a phase in 1..5, advancing stays in 1..5 and is exactly one step further in the game. */
  lemma AdvanceIsNextIndex(phase: int, stage: int)
    requires InRange(phase)
    ensures InRange(Advance(phase, stage).0)
    ensures Index(Advance(phase, stage).0, Advance(phase, stage).1) == Index(phase, stage) + 1
  {
  }

  /** A counter position names a single (phase, stage) pair. */
  lemma IndexDistinct(p1: int, s1: int, p2: int, s2: int)
    requires InRange(p1) && InRange(p2)
    ensures Index(p1, s1) == Index(p2, s2) <==> p1 == p2 && s1 == s2
  {
  }

  /** The counter after `n` cleared phases. */
  function AdvanceTimes(phase: int, stage: int, n: nat): (int, int)
  {
    if n == 0 then (phase, stage)
    else
      var r := AdvanceTimes(phase, stage, n - 1);
      Advance(r.0, r.1)
  }

  /** `n` cleared phases move the counter exactly `n` steps. */
  lemma {:induction false} AdvanceTimesIndex(phase: int, stage: int, n: nat)
    requires InRange(phase)
    ensures InRange(AdvanceTimes(phase, stage, n).0)
    ensures Index(AdvanceTimes(phase, stage, n).0, AdvanceTimes(phase, stage, n).1) == Index(phase, stage) + n
  {
    if n > 0 {
      AdvanceTimesIndex(phase, stage, n - 1);
      var r := AdvanceTimes(phase, stage, n - 1);
      AdvanceIsNextIndex(r.0, r.1);
    }
  }

  /** Clearing five phases from the start of a stage leads to the start of the next stage. */
  lemma FivePhasesMakeAStage(stage: int)
    ensures AdvanceTimes(1, stage, 5) == (1, stage + 1)
  {
    var r := AdvanceTimes(1, stage, 5);
    AdvanceTimesIndex(1, stage, 5);
    IndexDistinct(r.0, r.1, 1, stage + 1);
  }

  /** `List.Remove`: the first occurrence of `x` is removed, if there is one. */
  function RemoveFirst(s: seq<nat>, x: nat): seq<nat>
  {
    if s == [] then []
    else if s[0] == x then s[1..]
    else [s[0]] + RemoveFirst(s[1..], x)
  }

  /** Removing an enemy that is not in the list leaves it unchanged. */
  lemma {:induction false} RemoveAbsent(s: seq<nat>, x: nat)
    requires x !in s
    ensures RemoveFirst(s, x) == s
  {
    if s != [] {
      assert s[0] != x && x !in s[1..];
      RemoveAbsent(s[1..], x);
      assert s == [s[0]] + s[1..];
    }
  }

  /** Removing takes out exactly the first occurrence and keeps everything around it. */
  lemma {:induction false} RemoveFirstAt(s: seq<nat>, x: nat, i: nat)
    requires i < |s| && s[i] == x && x !in s[..i]
    ensures RemoveFirst(s, x) == s[..i] + s[i + 1..]
  {
    if i > 0 {
      assert s[1..][..i - 1] == s[1..i];
      assert x !in s[1..][..i - 1];
      RemoveFirstAt(s[1..], x, i - 1);
      assert s[..i] == [s[0]] + s[1..][..i - 1];
      assert s[i + 1..] == s[1..][i..];
    }
  }

  /** Exactly one copy of the enemy leaves the list when it is in it. */
  lemma {:induction false} RemoveFirstCount(s: seq<nat>, x: nat)
    ensures multiset(RemoveFirst(s, x)) == multiset(s) - multiset{x}
  {
    if s != [] {
      var t := s[1..];
      assert s == [s[0]] + t;
      assert multiset(s) == multiset{s[0]} + multiset(t);
      if s[0] != x {
        RemoveFirstCount(t, x);
        assert RemoveFirst(s, x) == [s[0]] + RemoveFirst(t, x);
        assert multiset(RemoveFirst(s, x)) == multiset{s[0]} + (multiset(t) - multiset{x});
      }
    }
  }

  /** Unregistering an enemy just registered (and not registered before) restores the list. */
  lemma {:induction false} RegisterThenUnregister(s: seq<nat>, x: nat)
    requires x !in s
    ensures RemoveFirst(s + [x], x) == s
  {
    if s != [] {
      assert (s + [x])[1..] == s[1..] + [x];
      RegisterThenUnregister(s[1..], x);
      assert s == [s[0]] + s[1..];
    } else {
      assert s + [x] == [x];
    }
  }

  /** Holder of the static `GameManager.instance`. */
  class Instance {
    var manager: GameManager?

    constructor ()
      ensures manager == null
    {
      manager := null;
    }
  }

  class GameManager {
    /** `_current_state`: null until `Start`. */
    var state: Option<GameState>
    var gamePhase: int
    var gameStage: int
    /** `spawnedEnemies`, enemies by identity. */
    var spawnedEnemies: seq<nat>
    /** Every state whose `StartState` ran, in order. */
    var entered: seq<GameState>
    /** The stages whose `s{stage}Arena` scene `LoadStage` loaded and generated. */
    var loadedArenas: seq<int>
    /** Kept across scene loads (`DontDestroyOnLoad`). */
    var persistent: bool
    /** `Destroy(gameObject)` was called. */
    var destroyed: bool

    constructor (phase: int, stage: int)
      ensures state == None && gamePhase == phase && gameStage == stage
      ensures spawnedEnemies == [] && entered == [] && loadedArenas == []
      ensures !persistent && !destroyed
    {
      state := None;
      gamePhase := phase;
      gameStage := stage;
      spawnedEnemies := [];
      entered := [];
      loadedArenas := [];
      persistent := false;
      destroyed := false;
    }

    /** `Awake`: the first manager becomes the instance and survives scene loads; any later one destroys itself. */
    method Awake(instance: Instance)
      modifies this, instance
      ensures old(instance.manager) == null ==> instance.manager == this && persistent && destroyed == old(destroyed)
      ensures old(instance.manager) != null ==> instance.manager == old(instance.manager) && destroyed && persistent == old(persistent)
      ensures state == old(state) && gamePhase == old(gamePhase) && gameStage == old(gameStage)
      ensures spawnedEnemies == old(spawnedEnemies) && entered == old(entered) && loadedArenas == old(loadedArenas)
    {
      if instance.manager == null {
        instance.manager := this;
        persistent := true;
      } else {
        destroyed := true;
        return;
      }
    }

    /**
     * `ChangeState`: the new state becomes current and its `StartState`
     * runs once; only `LoadStage` does something recorded here, loading the
     * current stage's arena.
     */
    method ChangeState(next: GameState)
      modifies this
      ensures state == Some(next) && entered == old(entered) + [next]
      ensures loadedArenas == old(loadedArenas) + (if next == LoadStage then [gameStage] else [])
      ensures gamePhase == old(gamePhase) && gameStage == old(gameStage) && spawnedEnemies == old(spawnedEnemies)
      ensures persistent == old(persistent) && destroyed == old(destroyed)
    {
      state := Some(next);
      entered := entered + [next];
      if next == LoadStage {
        loadedArenas := loadedArenas + [gameStage];
      }
    }

    /** `Start`: the game opens on the main menu. */
    method Start()
      modifies this
      ensures state == Some(MainMenuState) && entered == old(entered) + [MainMenuState]
      ensures loadedArenas == old(loadedArenas)
      ensures gamePhase == old(gamePhase) && gameStage == old(gameStage) && spawnedEnemies == old(spawnedEnemies)
      ensures persistent == old(persistent) && destroyed == old(destroyed)
    {
      ChangeState(MainMenuState);
    }

    /** Moves to the next phase and loads it. */
    method Progress()
      modifies this
      ensures (gamePhase, gameStage) == Advance(old(gamePhase), old(gameStage))
      ensures state == Some(LoadStage) && entered == old(entered) + [LoadStage]
      ensures loadedArenas == old(loadedArenas) + [gameStage]
      ensures spawnedEnemies == old(spawnedEnemies)
      ensures persistent == old(persistent) && destroyed == old(destroyed)
    {
      gamePhase := gamePhase + 1;
      if gamePhase > Phases {
        gamePhase := 1;
        gameStage := gameStage + 1;
      }
      ChangeState(LoadStage);
    }

    /** `PlayStage.UpdateState`: only once every spawned enemy is gone does E advance and load the next phase. */
    method PlayStageUpdate(keys: Keys)
      modifies this
      ensures |spawnedEnemies| > 0 || !keys.e ==> unchanged(this)
      ensures |old(spawnedEnemies)| == 0 && keys.e ==>
        (gamePhase, gameStage) == Advance(old(gamePhase), old(gameStage)) &&
        state == Some(LoadStage) && entered == old(entered) + [LoadStage] &&
        loadedArenas == old(loadedArenas) + [gameStage]
      ensures spawnedEnemies == old(spawnedEnemies)
      ensures persistent == old(persistent) && destroyed == old(destroyed)
    {
      if |spawnedEnemies| == 0 {
        if keys.e {
          Progress();
        }
      }
    }

    /** `CompletedStage.UpdateState`: E advances and loads the next phase. */
    method CompletedStageUpdate(keys: Keys)
      modifies this
      ensures !keys.e ==> unchanged(this)
      ensures keys.e ==>
        (gamePhase, gameStage) == Advance(old(gamePhase), old(gameStage)) &&
        state == Some(LoadStage) && entered == old(entered) + [LoadStage] &&
        loadedArenas == old(loadedArenas) + [gameStage]
      ensures spawnedEnemies == old(spawnedEnemies)
      ensures persistent == old(persistent) && destroyed == old(destroyed)
    {
      if keys.e {
        Progress();
      }
    }

    /** `LoadStage.UpdateState`: T returns to the main menu. */
    method LoadStageUpdate(keys: Keys)
      modifies this
      ensures !keys.t ==> unchanged(this)
      ensures keys.t ==> state == Some(MainMenuState) && entered == old(entered) + [MainMenuState]
      ensures loadedArenas == old(loadedArenas) && gamePhase == old(gamePhase) && gameStage == old(gameStage)
      ensures spawnedEnemies == old(spawnedEnemies)
      ensures persistent == old(persistent) && destroyed == old(destroyed)
    {
      if keys.t {
        ChangeState(MainMenuState);
      }
    }

    /**
     * `Update`: the current state's `UpdateState` (it must have been set by
     * `Start`). The main menu only loads scenes and `PlayState` does nothing,
     * so neither changes the manager; each stage state's transition is the
     * one its own `UpdateState` makes, so the counter only ever moves by one
     * `Advance`, and the stage never goes back.
     */
    method Update(keys: Keys)
      requires state.Some?
      modifies this
      ensures state.Some?
      ensures (gamePhase, gameStage) == old((gamePhase, gameStage)) || (gamePhase, gameStage) == Advance(old(gamePhase), old(gameStage))
      ensures gameStage >= old(gameStage)
      ensures old(state) == Some(MainMenuState) || old(state) == Some(PlayState) ==> unchanged(this)
      ensures old(state) == Some(PlayStage) && (|old(spawnedEnemies)| > 0 || !keys.e) ==> unchanged(this)
      ensures old(state) == Some(PlayStage) && |old(spawnedEnemies)| == 0 && keys.e ==>
        (gamePhase, gameStage) == Advance(old(gamePhase), old(gameStage)) &&
        state == Some(LoadStage) && entered == old(entered) + [LoadStage] &&
        loadedArenas == old(loadedArenas) + [gameStage]
      ensures old(state) == Some(CompletedStage) && !keys.e ==> unchanged(this)
      ensures old(state) == Some(CompletedStage) && keys.e ==>
        (gamePhase, gameStage) == Advance(old(gamePhase), old(gameStage)) &&
        state == Some(LoadStage) && entered == old(entered) + [LoadStage] &&
        loadedArenas == old(loadedArenas) + [gameStage]
      ensures old(state) == Some(LoadStage) && !keys.t ==> unchanged(this)
      ensures old(state) == Some(LoadStage) && keys.t ==>
        state == Some(MainMenuState) && entered == old(entered) + [MainMenuState] &&
        loadedArenas == old(loadedArenas) && gamePhase == old(gamePhase) && gameStage == old(gameStage)
      ensures spawnedEnemies == old(spawnedEnemies)
      ensures persistent == old(persistent) && destroyed == old(destroyed)
    {
      match state.value
      case MainMenuState =>
      case PlayState =>
      case PlayStage => PlayStageUpdate(keys);
      case CompletedStage => CompletedStageUpdate(keys);
      case LoadStage => LoadStageUpdate(keys);
    }

    /** `RegistryEnemy`. */
    method RegistryEnemy(enemy: nat)
      modifies this
      ensures spawnedEnemies == old(spawnedEnemies) + [enemy]
      ensures state == old(state) && gamePhase == old(gamePhase) && gameStage == old(gameStage)
      ensures entered == old(entered) && loadedArenas == old(loadedArenas)
      ensures persistent == old(persistent) && destroyed == old(destroyed)
    {
      spawnedEnemies := spawnedEnemies + [enemy];
    }

    /** `UnregistryEnemy`: `List.Remove`, first occurrence only. */
    method UnregistryEnemy(enemy: nat)
      modifies this
      ensures spawnedEnemies == RemoveFirst(old(spawnedEnemies), enemy)
      ensures state == old(state) && gamePhase == old(gamePhase) && gameStage == old(gameStage)
      ensures entered == old(entered) && loadedArenas == old(loadedArenas)
      ensures persistent == old(persistent) && destroyed == old(destroyed)
    {
      spawnedEnemies := RemoveFirst(spawnedEnemies, enemy);
    }
  }
}
