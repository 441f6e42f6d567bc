/** Character classes shared by the address checks and the unit reader of the helper. */
module Characters {
  predicate IsDigit(c: char) {
    '0' <= c <= '9'
  }
}
