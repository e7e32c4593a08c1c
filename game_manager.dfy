/**
 * The GameManager component: the game's life cycle as transitions over the
 * set of screen components attached to the stage, plus the score entry that
 * leaving or restarting a game adds to the leaderboard.
 */
module GameManagerComponent {
  import opened Engine
  import G = GameScreen
  import L = LeaderboardScreen

  /** The screen components the manager attaches to and detaches from the stage. */
  datatype Screen = Menu | Game | GameGui | Leaderboard

  /** The name every score is recorded under. */
  const PLAYER_NAME: string := "John Doe"

  /** The messages the manager subscribes to. */
  predicate Subscribed(msg: Msg)
  {
    msg.StartGame? || msg.ExitGame? || msg.RestartGame? || msg.ShowScore? || msg.CloseScore?
  }

  /** The screen whose buttons send each subscribed message. */
  function SenderOf(msg: Msg): (s: Screen)
    requires Subscribed(msg)
    ensures s == Menu <==> msg.StartGame? || msg.ShowScore?
    ensures s == GameGui <==> msg.ExitGame? || msg.RestartGame?
    ensures s == Leaderboard <==> msg.CloseScore?
  {
    match msg
    case StartGame => Menu
    case ShowScore => Menu
    case ExitGame => GameGui
    case RestartGame => GameGui
    case CloseScore => Leaderboard
  }

  /** The stage shows exactly one of the menu, a game with its GUI, or the high scores. */
  predicate OneScreen(attached: set<Screen>)
  {
    attached == {Menu} || attached == {Game, GameGui} || attached == {Leaderboard}
  }

  /**
   * The screens attached after the manager handles `msg`: each screen is on
   * the stage afterwards exactly when the message opens it, or when it was
   * there before and the message does not close it.
   */
  function NextScreens(msg: Msg, attached: set<Screen>): (r: set<Screen>)
    ensures Menu in r <==> msg.ExitGame? || msg.CloseScore?
                           || (Menu in attached && !msg.StartGame? && !msg.ShowScore?)
    ensures Game in r <==> msg.StartGame? || msg.RestartGame? || (Game in attached && !msg.ExitGame?)
    ensures GameGui in r <==> msg.StartGame? || msg.RestartGame? || (GameGui in attached && !msg.ExitGame?)
    ensures Leaderboard in r <==> msg.ShowScore? || (Leaderboard in attached && !msg.CloseScore?)
  {
    if msg.StartGame? then attached - {Menu} + {Game, GameGui}
    else if msg.ExitGame? then attached - {Game, GameGui} + {Menu}
    else if msg.RestartGame? then attached - {Game, GameGui} + {Game, GameGui}
    else if msg.ShowScore? then attached - {Menu} + {Leaderboard}
    else if msg.CloseScore? then attached - {Leaderboard} + {Menu}
    else attached
  }

  /**
   * A message sent by a screen that is on the stage moves the stage from one
   * screen to one screen, and to the screen its button names.
   */
  lemma NextScreensKeepsOneScreen(msg: Msg, attached: set<Screen>)
    requires OneScreen(attached) && Subscribed(msg) && SenderOf(msg) in attached
    ensures OneScreen(NextScreens(msg, attached))
    ensures msg.StartGame? || msg.RestartGame? ==> NextScreens(msg, attached) == {Game, GameGui}
    ensures msg.ExitGame? || msg.CloseScore? ==> NextScreens(msg, attached) == {Menu}
    ensures msg.ShowScore? ==> NextScreens(msg, attached) == {Leaderboard}
  {
  }

  /** Messages the manager does not subscribe to leave the stage as it is. */
  lemma NextScreensIgnoresOthers(msg: Msg, attached: set<Screen>)
    requires !Subscribed(msg)
    ensures NextScreens(msg, attached) == attached
  {
  }

  class GameManager {
    var attached: set<Screen>
    const game: G.Game
    const leaderBoard: L.Leaderboard

    ghost predicate Valid()
      reads this, leaderBoard, game
    {
      leaderBoard.Valid() && game.Valid()
    }

    /** `onInit`: create the screens and show the menu. */
    constructor ()
      ensures Valid() && fresh(game) && fresh(leaderBoard)
      ensures attached == {Menu} && OneScreen(attached)
      ensures leaderBoard.table == [] && game.score == 0
    {
      game := new G.Game();
      leaderBoard := new L.Leaderboard();
      attached := {};
      new;
      ShowMenu();
    }

    /**
     * Handle one message: START_GAME and SHOW_SCORE leave the menu, EXIT_GAME
     * and RESTART_GAME first record the game's score, CLOSE_SCORE returns to
     * the menu. Only EXIT_GAME and RESTART_GAME touch the leaderboard.
     */
    method OnMessage(msg: Msg)
      requires Valid()
      modifies this, leaderBoard
      ensures Valid()
      ensures attached == NextScreens(msg, old(attached))
      ensures (msg.ExitGame? || msg.RestartGame?) ==>
        leaderBoard.table == L.Insert(old(leaderBoard.table), L.Entry(PLAYER_NAME, game.score))
      ensures !(msg.ExitGame? || msg.RestartGame?) ==> leaderBoard.table == old(leaderBoard.table)
    {
      if msg.StartGame? {
        CloseMenu();
        StartGame();
      } else if msg.ExitGame? {
        RecordScore();

        ExitGame();
        ShowMenu();
      } else if msg.RestartGame? {
        RecordScore();

        ExitGame();
        StartGame();
      } else if msg.ShowScore? {
        CloseMenu();
        ShowScore();
      } else if msg.CloseScore? {
        CloseScore();
        ShowMenu();
      }
    }

    /** Add the finished game's score to the leaderboard under the player's name. */
    method RecordScore()
      requires Valid()
      modifies leaderBoard
      ensures Valid()
      ensures leaderBoard.table == L.Insert(old(leaderBoard.table), L.Entry(PLAYER_NAME, game.score))
    {
      var gameScore := game.GetScore();
      leaderBoard.AddScore(PLAYER_NAME, gameScore);
    }

    method ShowMenu()
      modifies this`attached
      ensures attached == old(attached) + {Menu}
    {
      attached := attached + {Menu};
    }

    method CloseMenu()
      modifies this`attached
      ensures attached == old(attached) - {Menu}
    {
      attached := attached - {Menu};
    }

    method StartGame()
      modifies this`attached
      ensures attached == old(attached) + {Game, GameGui}
    {
      attached := attached + {Game, GameGui};
    }

    method ExitGame()
      modifies this`attached
      ensures attached == old(attached) - {Game, GameGui}
    {
      attached := attached - {Game, GameGui};
    }

    method ShowScore()
      modifies this`attached
      ensures attached == old(attached) + {Leaderboard}
    {
      attached := attached + {Leaderboard};
    }

    method CloseScore()
      modifies this`attached
      ensures attached == old(attached) - {Leaderboard}
    {
      attached := attached - {Leaderboard};
    }
  }
}
