/** Argument checking, as in Assert.java. */
module Assert {
  import opened Wrappers
  import opened JavaTypes

  /**
   * `Assert.notNull(argument, claimOrArgName)`: hands a present argument back unchanged and
   * turns an absent one into an IllegalArgumentException. The second parameter is either
   * the name of the argument (no space in it) or a complete claim (with a space).
   */
  function NotNull<T>(argument: Option<T>, claimOrArgName: Option<string>): (r: Result<T, Exception>)
    ensures argument.Some? <==> r.Success?
    ensures argument.Some? ==> r.value == argument.value
    ensures r.Failure? ==> r.error.IllegalArgumentException?
    ensures argument.None? && claimOrArgName.None? ==>
      r.error.message == "Argument must not be null"
    ensures argument.None? && claimOrArgName.Some? && ' ' !in claimOrArgName.value ==>
      r.error.message == "Argument '" + claimOrArgName.value + "' must not be null"
    ensures argument.None? && claimOrArgName.Some? && ' ' in claimOrArgName.value ==>
      r.error.message == claimOrArgName.value
  {
    if argument.None? then
      var message :=
        if claimOrArgName.None? then "Argument must not be null"
        else if ' ' !in claimOrArgName.value then "Argument '" + claimOrArgName.value + "' must not be null"
        else claimOrArgName.value;
      Failure(IllegalArgumentException(message))
    else
      Success(argument.value)
  }

  /**
   * Whatever the claim, the message of the exception reads as a sentence: it has a space
   * in it, and it quotes the argument name or the claim it was given.
   */
  lemma NotNullMessageIsReadable<T>(claimOrArgName: Option<string>)
    ensures var r := NotNull<T>(None, claimOrArgName);
      && r.Failure?
      && ' ' in r.error.message
      && (claimOrArgName.Some? ==> Mentions(r.error.message, claimOrArgName.value))
  {
    var r := NotNull<T>(None, claimOrArgName);
    var m := r.error.message;
    if claimOrArgName.None? {
      assert m[8] == ' ';
    } else if ' ' !in claimOrArgName.value {
      var c := claimOrArgName.value;
      assert m[8] == ' ';
      assert c <= m[10..];
    } else {
      assert m[0..] == m;
    }
  }

  /** `part` occurs somewhere in `text`. */
  predicate Mentions(text: string, part: string)
  {
    exists k :: 0 <= k <= |text| && part <= text[k..]
  }
}
