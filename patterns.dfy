/**
  Text matching for the bot's global actions.  Every pattern the bot registers
  is an anchored literal (`^...$`), so matching is string equality; the
  patterns that carry the `i` flag compare after case folding.
 */
module Patterns {

  /** Lower-case folding of the Latin capitals A-Z and the Cyrillic capitals
      U+0400-U+042F; every other character folds to itself. */
  function FoldChar(c: char): (r: char)
    ensures r == c || ('A' <= c <= 'Z') || ('\U{0400}' <= c <= '\U{042F}')
    ensures 'a' <= r <= 'z' <==> ('a' <= c <= 'z' || 'A' <= c <= 'Z')
  {
    if 'A' <= c <= 'Z' then (c as int + 32) as char
    else if '\U{0410}' <= c <= '\U{042F}' then (c as int + 32) as char
    else if '\U{0400}' <= c <= '\U{040F}' then (c as int + 80) as char
    else c
  }

  /** Folds every character of `s`. */
  function Fold(s: string): (r: string)
    ensures |r| == |s|
    ensures forall i :: 0 <= i < |s| ==> r[i] == FoldChar(s[i])
  {
    if s == [] then [] else [FoldChar(s[0])] + Fold(s[1..])
  }

  /** A case-insensitive anchored literal pattern `^p$` with the `i` flag. */
  predicate MatchesIgnoringCase(text: string, p: string) {
    Fold(text) == Fold(p)
  }

  // The literals of the case-insensitive patterns, as written in the bot.
  const ResetWord := "reset"
  const PingWord := "ping"
  const CancelPayload := "GO_CANCEL"
  const CancelWord := "\U{041E}\U{0442}\U{043C}\U{0435}\U{043D}\U{0430}"  // "Отмена"

  // The cancel literals folded; `FoldedLiterals` shows that they are.
  const CancelPayloadFolded := "go_cancel"
  const CancelWordFolded := "\U{043E}\U{0442}\U{043C}\U{0435}\U{043D}\U{0430}"  // "отмена"

  /** Folding `a` gives `b` when it does so character by character. */
  lemma FoldsTo(a: string, b: string)
    requires |a| == |b|
    requires forall i :: 0 <= i < |a| ==> FoldChar(a[i]) == b[i]
    ensures Fold(a) == b
  {
    assert forall i :: 0 <= i < |a| ==> Fold(a)[i] == b[i];
  }

  /** The literals the matchers compare against are the foldings of the
      bot's literals. */
  lemma FoldedLiterals()
    ensures Fold(ResetWord) == ResetWord
    ensures Fold(PingWord) == PingWord
    ensures Fold(CancelPayload) == CancelPayloadFolded
    ensures Fold(CancelWord) == CancelWordFolded
  {
    FoldsTo(ResetWord, ResetWord);
    FoldsTo(PingWord, PingWord);
    CancelPayloadFolds();
    CancelWordFolds();
  }

  lemma CancelPayloadFolds()
    ensures Fold(CancelPayload) == CancelPayloadFolded
  {
    var p := CancelPayload;
    assert FoldChar(p[0]) == 'g' && FoldChar(p[1]) == 'o' && FoldChar(p[2]) == '_';
    assert FoldChar(p[3]) == 'c' && FoldChar(p[4]) == 'a' && FoldChar(p[5]) == 'n';
    assert FoldChar(p[6]) == 'c' && FoldChar(p[7]) == 'e' && FoldChar(p[8]) == 'l';
    FoldsTo(p, CancelPayloadFolded);
  }

  lemma CancelWordFolds()
    ensures Fold(CancelWord) == CancelWordFolded
  {
    var w := CancelWord;
    assert FoldChar(w[0]) == CancelWordFolded[0];
    FoldsTo(w, CancelWordFolded);
  }

  /** `/^reset$/i`, the custom reset action. */
  predicate IsResetText(text: string) {
    Fold(text) == ResetWord
  }

  /** `/^ping$/i`, the trigger of the `demo` dialog. */
  predicate IsPingText(text: string) {
    Fold(text) == PingWord
  }

  /** `/^GO_CANCEL$|^Отмена$/i`, the cancel action of the `send` dialog. */
  predicate IsCancelText(text: string) {
    Fold(text) == CancelPayloadFolded || Fold(text) == CancelWordFolded
  }

  /** The three matchers are exactly the case-insensitive matches of the
      bot's literals. */
  lemma MatchersIgnoreCase(text: string)
    ensures IsResetText(text) <==> MatchesIgnoringCase(text, ResetWord)
    ensures IsPingText(text) <==> MatchesIgnoringCase(text, PingWord)
    ensures IsCancelText(text) <==> MatchesIgnoringCase(text, CancelPayload) || MatchesIgnoringCase(text, CancelWord)
  {
    FoldedLiterals();
  }

  /** The `i` flag at work: upper- and mixed-case spellings match. */
  lemma ResetIgnoresCase()
    ensures IsResetText("RESET")
  {
    var t := "RESET";
    assert FoldChar(t[0]) == 'r' && FoldChar(t[1]) == 'e' && FoldChar(t[2]) == 's';
    assert FoldChar(t[3]) == 'e' && FoldChar(t[4]) == 't';
    FoldsTo(t, ResetWord);
  }

  lemma PingIgnoresCase()
    ensures IsPingText("Ping")
  {
    var t := "Ping";
    assert FoldChar(t[0]) == 'p';
    FoldsTo(t, PingWord);
  }

  lemma CancelIgnoresCase()
    ensures IsCancelText("Go_Cancel")
  {
    var t := "Go_Cancel";
    assert FoldChar(t[0]) == 'g' && FoldChar(t[3]) == 'c';
    FoldsTo(t, CancelPayloadFolded);
  }

  lemma CancelWordIgnoresCase()
    ensures IsCancelText("\U{041E}\U{0422}\U{041C}\U{0415}\U{041D}\U{0410}")  // "ОТМЕНА"
  {
    var t := "\U{041E}\U{0422}\U{041C}\U{0415}\U{041D}\U{0410}";
    assert FoldChar(t[0]) == CancelWordFolded[0];
    assert FoldChar(t[1]) == CancelWordFolded[1];
    assert FoldChar(t[2]) == CancelWordFolded[2];
    assert FoldChar(t[3]) == CancelWordFolded[3];
    assert FoldChar(t[4]) == CancelWordFolded[4];
    assert FoldChar(t[5]) == CancelWordFolded[5];
    FoldsTo(t, CancelWordFolded);
  }

  /** The case-sensitive trigger literals and the case-insensitive actions
      never match the same text, so the order in which the actions are
      consulted does not matter. */
  lemma ActionPatternsDisjoint(text: string)
    ensures !(IsResetText(text) && IsPingText(text))
    ensures !(IsResetText(text) && IsCancelText(text))
    ensures !(IsPingText(text) && IsCancelText(text))
    ensures text == "GO_HELP" || text == "GO_SEND" ==> !IsResetText(text) && !IsPingText(text) && !IsCancelText(text)
  {
    assert |Fold(text)| == |text|;
  }
}
