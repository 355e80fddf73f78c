/** Keyboard keys and the movement intent each one stands for. */
module Keys {

  /** What a key means to the game. */
  datatype Intent = LeftKey | RightKey | OtherKey

  /** "a" and "ArrowLeft" steer left, "d" and "ArrowRight" steer right; every other key is ignored. */
  function IntentOf(key: string): (i: Intent)
    ensures i == LeftKey ==> key == "a" || key == "ArrowLeft"
    ensures i == RightKey ==> key == "d" || key == "ArrowRight"
    ensures i == OtherKey ==> key !in {"a", "ArrowLeft", "d", "ArrowRight"}
  {
    if key == "a" || key == "ArrowLeft" then LeftKey
    else if key == "d" || key == "ArrowRight" then RightKey
    else OtherKey
  }

  /** The match is exact: upper-case letters do not steer. */
  lemma IntentIsCaseSensitive()
    ensures IntentOf("A") == OtherKey && IntentOf("D") == OtherKey
  {
  }
}
