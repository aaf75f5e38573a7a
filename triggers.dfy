/**
 * The text triggers of `on_message`: an `if/elif` chain on the lowercased
 * message content, so at most one of them fires, in a fixed order. The
 * content is neither trimmed nor otherwise normalised.
 */
module Triggers {

  datatype Trigger =
    | LevelQuery   // content starts with "level?"
    | XpLeft       // content is exactly "xp left"
    | CommandList  // content is exactly "what commands", or the bot is mentioned
    | KeyHint      // content is exactly "key"
    | NoTrigger

  const LevelPrefix: string := "level?"
  const XpLeftText: string := "xp left"
  const CommandsText: string := "what commands"
  const KeyText: string := "key"

  /** `str.lower()` on ASCII letters. */
  function LowerChar(c: char): char
  {
    if 'A' <= c <= 'Z' then (c as int - 'A' as int + 'a' as int) as char else c
  }

  function Lower(s: string): (r: string)
    ensures |r| == |s|
    ensures forall i :: 0 <= i < |s| ==> !('A' <= r[i] <= 'Z')
    ensures forall i :: 0 <= i < |s| && !('A' <= s[i] <= 'Z') ==> r[i] == s[i]
    ensures forall i :: 0 <= i < |s| && 'A' <= s[i] <= 'Z' ==> r[i] as int == s[i] as int + 32
  {
    seq(|s|, i requires 0 <= i < |s| => LowerChar(s[i]))
  }

  /** The `if/elif` chain of `on_message`, first match wins. */
  function SelectTrigger(content: string, mentionsBot: bool): (t: Trigger)
    ensures t.LevelQuery? <==> LevelPrefix <= Lower(content)
    ensures mentionsBot ==> t.LevelQuery? || t.XpLeft? || t.CommandList?
    ensures t.XpLeft? <==> Lower(content) == XpLeftText
    ensures t.CommandList? <==>
      !(LevelPrefix <= Lower(content)) && Lower(content) != XpLeftText
      && (Lower(content) == CommandsText || mentionsBot)
    ensures t.KeyHint? <==> Lower(content) == KeyText && !mentionsBot
    ensures t.NoTrigger? <==>
      && !mentionsBot
      && !(LevelPrefix <= Lower(content))
      && Lower(content) != XpLeftText
      && Lower(content) != CommandsText
      && Lower(content) != KeyText
  {
    var lowered := Lower(content);
    assert lowered == XpLeftText || lowered == CommandsText || lowered == KeyText ==> !(LevelPrefix <= lowered) by {
      if LevelPrefix <= lowered {
        assert lowered[0] == 'l';
      }
    }
    if LevelPrefix <= lowered then LevelQuery
    else if lowered == XpLeftText then XpLeft
    else if lowered == CommandsText || mentionsBot then CommandList
    else if lowered == KeyText then KeyHint
    else NoTrigger
  }

  lemma LowerIdempotent(s: string)
    ensures Lower(Lower(s)) == Lower(s)
  {
  }

  /** Matching is case-insensitive: only the lowercased content matters. */
  lemma SelectCaseInsensitive(content: string, mentionsBot: bool)
    ensures SelectTrigger(Lower(content), mentionsBot) == SelectTrigger(content, mentionsBot)
  {
    LowerIdempotent(content);
  }

  /** Case does not matter. */
  lemma TriggerExamples()
    ensures SelectTrigger("Level? please", false) == LevelQuery
    ensures SelectTrigger("XP Left", false) == XpLeft
    ensures SelectTrigger("What Commands", false) == CommandList
    ensures SelectTrigger("KEY", false) == KeyHint
  {
    assert Lower("Level? please")[..6] == LevelPrefix;
    assert Lower("XP Left") == XpLeftText;
    assert Lower("XP Left")[0] == 'x';
  }

  /** Surrounding whitespace does matter, and earlier triggers win over a bot mention. */
  lemma TriggerPrecedenceExamples()
    ensures SelectTrigger("xp left ", false) == NoTrigger
    ensures SelectTrigger(" key", false) == NoTrigger
    ensures SelectTrigger("key", true) == CommandList
    ensures SelectTrigger("level?", true) == LevelQuery
  {
    assert Lower("level?")[..6] == LevelPrefix;
    assert Lower("xp left ") != XpLeftText by { assert |Lower("xp left ")| == 8; }
    assert Lower("xp left ")[0] == 'x';
    assert Lower(" key")[0] == ' ';
  }
}
