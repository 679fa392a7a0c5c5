/** `process_mention`: the `@name, ` prefix that commands put in front of their reply. */
module AddMention {
  import opened Wrappers
  import opened Text

  /**
   * No argument gives no prefix. Otherwise the mention starts with '@', ends with
   * ", ", and holds the argument itself, after an added '@' only when the argument
   * does not start with one.
   */
  function ProcessMention(arg: Option<string>): (r: string)
    ensures arg.None? <==> r == ""
    ensures arg.Some? ==> StartsWith(r, "@") && |r| >= 3 && r[|r| - 2..] == ", "
    ensures arg.Some? && StartsWith(arg.value, "@") ==> |r| == |arg.value| + 2 && r[..|arg.value|] == arg.value
    ensures arg.Some? && !StartsWith(arg.value, "@") ==> |r| == |arg.value| + 3 && r[1..|arg.value| + 1] == arg.value
  {
    if arg.None? then ""
    else if StartsWith(arg.value, "@") then arg.value + ", "
    else "@" + arg.value + ", "
  }

  /** A mention of a mention adds nothing further in front: the '@' is never doubled. */
  lemma MentionNotDoubled(name: string)
    ensures ProcessMention(Some("@" + name)) == "@" + name + ", "
    ensures ProcessMention(Some(name)) == ProcessMention(Some("@" + name)) || StartsWith(name, "@")
  {
  }
}
