// The keyboard state a character reads on one update: each direction is held when
// either its letter key or its arrow key is down (A/Left, D/Right, W/Up, S/Down).
module Input {

  datatype Keys = Keys(left: bool, right: bool, up: bool, down: bool, space: bool)

  /** The direction the keys ask for: x grows to the right, y downwards. */
  function KeyAxis(negative: bool, positive: bool): (d: int)
    ensures -1 <= d <= 1
    ensures d != 0 <==> negative != positive
  {
    (if positive then 1 else 0) - (if negative then 1 else 0)
  }
}
