/**
 * The status line of the game. Each message the component can show is a
 * constructor; `Text` gives the exact words displayed.
 */
module Messages {
  datatype Message =
    | PlaceYourShips
    | MustPlaceAllShips
    | GameStarted
    | PlayerHit
    | PlayerSank(name: string)
    | PlayerMissed
    | ComputerHit
    | ComputerSank(name: string)
    | ComputerMissed
    | PlayerWon
    | PlayerLost

  /** The words of the message, as the component displays them. */
  function Text(m: Message): string
  {
    match m
    case PlaceYourShips => "Place your ships on the grid."
    case MustPlaceAllShips => "You must place all ships before starting the game!"
    case GameStarted => "Game started! Click on the opponent's grid to fire."
    case PlayerHit => "Hit!"
    case PlayerSank(name) => "You sunk the enemy's " + name + "!"
    case PlayerMissed => "Miss! Computer's turn."
    case ComputerHit => "Your ship was hit! Your turn."
    case ComputerSank(name) => "The enemy sunk your " + name + "!"
    case ComputerMissed => "The enemy missed! Your turn."
    case PlayerWon => "Congratulations! You won the game!"
    case PlayerLost => "Game over! The enemy sunk all your ships."
  }
}
