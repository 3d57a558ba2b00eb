/** A player: a fixed name and sign, and a count of the rounds won. */
module Players {
  import opened GameBoard

  datatype Player = Player(name: string, sign: Sign, winningRounds: nat)

  /** The factory: a new player has not won any round yet. */
  function NewPlayer(name: string, sign: Sign): (p: Player)
    ensures p.name == name && p.sign == sign
    ensures p.winningRounds == 0
  {
    Player(name, sign, 0)
  }

  /** Records one more won round; name and sign never change. */
  function UpdateWinningRounds(p: Player): (q: Player)
    ensures q.winningRounds == p.winningRounds + 1
    ensures q.name == p.name && q.sign == p.sign
  {
    p.(winningRounds := p.winningRounds + 1)
  }

  /** The name a player is created with: the given one, or `fallback` when
      the given one is empty. The result is never empty as long as the
      fallback is not. */
  function NameOrDefault(given: string, fallback: string): (n: string)
    requires fallback != ""
    ensures n != ""
    ensures given != "" ==> n == given
    ensures n == given || n == fallback
  {
    if given == "" then fallback else given
  }
}
