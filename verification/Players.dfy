/** The two players of a game. */
module Players {
  datatype PlayerId = One | Two {
    function Opponent(): PlayerId {
      if this == One then Two else One
    }
  }
}
