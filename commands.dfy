/**
 * aiogram's `CommandStart()` filter, which `command_start` is registered
 * with. The filter reads the first word of a message's text as
 * `/<command>[@<mention>]` and accepts the command `start`, alone or
 * addressed to this bot; whatever follows the first word is the command's
 * argument and is not looked at.
 */
module Commands {
  import opened Wrappers
  import opened PyText

  /** The index of the first `str.isspace()` character of `s`, or `|s|` when there is none. */
  function WordEnd(s: string): (n: nat)
    ensures n <= |s|
  {
    if s == [] || IsSpace(s[0]) then 0 else 1 + WordEnd(s[1..])
  }

  /** `s` without its leading `str.isspace()` characters. */
  function SkipSpace(s: string): (r: string)
    ensures |r| <= |s| && r == s[|s| - |r|..]
    ensures r == [] || !IsSpace(r[0])
  {
    if s != [] && IsSpace(s[0]) then SkipSpace(s[1..]) else s
  }

  /**
   * Whether `word` stands at index `k` of `text` as its first word: only
   * white space before it, white space or the end of the text after it.
   */
  predicate FirstWordAt(text: string, k: nat, word: string) {
    && k + |word| <= |text|
    && text[k..k + |word|] == word
    && (forall i :: 0 <= i < k ==> IsSpace(text[i]))
    && (k + |word| < |text| ==> IsSpace(text[k + |word|]))
  }

  /**
   * `text.split(maxsplit=1)[0]`: the first word of the text, or `None` where
   * the text is blank, the split yields nothing and the filter's unpacking
   * raises.
   */
  function FirstWord(text: string): (w: Option<string>)
    ensures w.Some? ==> w.value != []
  {
    var rest := SkipSpace(text);
    if rest == [] then None else Some(rest[..WordEnd(rest)])
  }

  /**
   * `s.partition("@")`: the text before the first `@`, and the text after it,
   * which is empty when there is no `@`.
   */
  function Partition(s: string): (string, string) {
    if s == [] then ([], [])
    else if s[0] == '@' then ([], s[1..])
    else
      var p := Partition(s[1..]);
      ([s[0]] + p.0, p.1)
  }

  /** The first word ends at the first white space, or at the end. */
  lemma {:induction false} WordEndSpec(s: string)
    ensures forall i :: 0 <= i < WordEnd(s) ==> !IsSpace(s[i])
    ensures WordEnd(s) < |s| ==> IsSpace(s[WordEnd(s)])
  {
    if s != [] && !IsSpace(s[0]) {
      WordEndSpec(s[1..]);
      assert forall i :: 0 < i < WordEnd(s) ==> s[i] == s[1..][i - 1];
    }
  }

  /** What `SkipSpace` removes is white space. */
  lemma {:induction false} SkipSpaceSpec(s: string)
    ensures forall i :: 0 <= i < |s| - |SkipSpace(s)| ==> IsSpace(s[i])
  {
    if s != [] && IsSpace(s[0]) {
      SkipSpaceSpec(s[1..]);
      assert forall i :: 0 < i < |s| - |SkipSpace(s)| ==> s[i] == s[1..][i - 1];
    }
  }

  /**
   * The split finds no word exactly in a blank text; otherwise the word it
   * finds holds no white space and stands first in the text.
   */
  lemma FirstWordSpec(text: string)
    ensures FirstWord(text).None? <==> forall i :: 0 <= i < |text| ==> IsSpace(text[i])
    ensures FirstWord(text).Some? ==>
              && (forall i :: 0 <= i < |FirstWord(text).value| ==> !IsSpace(FirstWord(text).value[i]))
              && exists k :: FirstWordAt(text, k, FirstWord(text).value)
  {
    var rest := SkipSpace(text);
    SkipSpaceSpec(text);
    if rest != [] {
      var k, n := |text| - |rest|, WordEnd(rest);
      WordEndSpec(rest);
      assert text[k] == rest[0];
      assert text[k..k + n] == rest[..n];
      assert FirstWordAt(text, k, rest[..n]);
    }
  }

  /**
   * The partition: the first part holds no `@`; with an `@` in the text, the
   * parts joined by `@` give the text back; without one, the first part is
   * the whole text.
   */
  lemma {:induction false} PartitionSpec(s: string)
    ensures '@' !in Partition(s).0
    ensures '@' in s ==> s == Partition(s).0 + "@" + Partition(s).1
    ensures '@' !in s ==> Partition(s) == (s, [])
  {
    if s != [] && s[0] != '@' {
      PartitionSpec(s[1..]);
      assert s == [s[0]] + s[1..];
    }
  }

  /** `str.lower()` on one character, for ASCII letters. */
  function Lower(c: char): char {
    if 'A' <= c <= 'Z' then (c as int - 'A' as int + 'a' as int) as char else c
  }

  /** `a.lower() == b.lower()`, with ASCII case folding. */
  predicate SameIgnoringCase(a: string, b: string) {
    |a| == |b| && forall i :: 0 <= i < |a| ==> Lower(a[i]) == Lower(b[i])
  }

  /**
   * The mention check: a command addressed to some bot passes only when it
   * names this one, `me`, compared without regard to case. A bot without a
   * username accepts every mention.
   */
  predicate MentionsMe(mention: string, me: string) {
    mention == [] || me == [] || SameIgnoringCase(mention, me)
  }

  /** Whether `CommandStart()` accepts a message with this text, for the bot named `me`. */
  predicate IsStartCommand(text: string, me: string) {
    FirstWord(text).Some? && IsStartWord(FirstWord(text).value, me)
  }

  /**
   * The filter's test of the first word: it starts with the prefix `/`, the
   * part before the first `@` is `start`, and the part after it is a mention
   * of this bot or empty.
   */
  predicate IsStartWord(word: string, me: string) {
    && word != []
    && word[0] == '/'
    && Partition(word[1..]).0 == "start"
    && MentionsMe(Partition(word[1..]).1, me)
  }

  /** The command words `CommandStart()` accepts, written out: `/start`, or `/start@` and a mention of this bot. */
  predicate StartWord(word: string, me: string) {
    word == "/start" || (|word| >= 7 && word[..7] == "/start@" && MentionsMe(word[7..], me))
  }

  /** The filter accepts exactly the words `/start` and `/start@<mention of this bot>`. */
  lemma StartWords(word: string, me: string)
    ensures IsStartWord(word, me) <==> StartWord(word, me)
  {
    if word == "/start" {
      StartWordPlain(word, me);
    } else if |word| >= 7 && word[..7] == "/start@" {
      StartWordMention(word, me);
    } else if IsStartWord(word, me) {
      StartWordParsed(word, me);
    }
  }

  lemma StartWordPlain(word: string, me: string)
    requires word == "/start"
    ensures IsStartWord(word, me)
  {
    assert word[1..] == "start";
    PartitionWithoutAt("start");
  }

  lemma StartWordMention(word: string, me: string)
    requires |word| >= 7 && word[..7] == "/start@"
    ensures IsStartWord(word, me) <==> MentionsMe(word[7..], me)
  {
    assert word[1..] == "start" + "@" + word[7..];
    PartitionAtFirst("start", word[7..]);
  }

  lemma StartWordParsed(word: string, me: string)
    requires IsStartWord(word, me)
    ensures StartWord(word, me)
  {
    var p := Partition(word[1..]);
    PartitionSpec(word[1..]);
    if '@' in word[1..] {
      assert word == "/start@" + p.1;
      assert word[..7] == "/start@" && word[7..] == p.1;
    } else {
      assert word == [word[0]] + word[1..];
    }
  }

  /** The split at the first `@` of a text whose first part holds none. */
  lemma {:induction false} PartitionAtFirst(a: string, b: string)
    requires '@' !in a
    ensures Partition(a + "@" + b) == (a, b)
  {
    if a != [] {
      var s := a + "@" + b;
      assert s[0] == a[0] && s[1..] == a[1..] + "@" + b;
      PartitionAtFirst(a[1..], b);
      assert [a[0]] + a[1..] == a;
    }
  }

  lemma PartitionWithoutAt(a: string)
    requires '@' !in a
    ensures Partition(a) == (a, [])
  {
    PartitionSpec(a);
  }

  /** A message that holds no `/` is never the start command; it is a plain answer. */
  lemma NoSlashNoStart(text: string, me: string)
    requires '/' !in text
    ensures !IsStartCommand(text, me)
  {
    FirstWordSpec(text);
    if FirstWord(text).Some? {
      var word := FirstWord(text).value;
      var k: nat :| FirstWordAt(text, k, word);
      assert word[0] == text[k];
    }
  }

  /**
   * `/start` addressed to another bot is not the start command of this one,
   * whatever follows it.
   */
  lemma OtherBotNoStart(me: string, mention: string, args: string)
    requires me != [] && mention != [] && !SameIgnoringCase(mention, me)
    requires forall i :: 0 <= i < |mention| ==> !IsSpace(mention[i])
    requires args == [] || IsSpace(args[0])
    ensures !IsStartCommand("/start@" + mention + args, me)
  {
    var text := "/start@" + mention + args;
    var word := "/start@" + mention;
    FirstWordIs(text, word);
    assert word[..7] == "/start@" && word[7..] == mention;
    StartWordMention(word, me);
  }

  /** `/start`, alone or followed by an argument, is the start command. */
  lemma PlainStart(me: string, args: string)
    requires args == [] || IsSpace(args[0])
    ensures IsStartCommand("/start" + args, me)
  {
    FirstWordIs("/start" + args, "/start");
    StartWordPlain("/start", me);
  }

  /** A text that opens with a word of no white space has that word first. */
  lemma FirstWordIs(text: string, word: string)
    requires word != [] && forall i :: 0 <= i < |word| ==> !IsSpace(word[i])
    requires |word| <= |text| && text[..|word|] == word
    requires |word| == |text| || IsSpace(text[|word|])
    ensures FirstWord(text) == Some(word)
  {
    assert text[0] == word[0];
    assert SkipSpace(text) == text;
    WordEndAt(text, |word|);
  }

  /** The first word of `s` ends at `k` when `k` is the first white space or the end. */
  lemma {:induction false} WordEndAt(s: string, k: nat)
    requires k <= |s| && forall i :: 0 <= i < k ==> !IsSpace(s[i])
    requires k == |s| || IsSpace(s[k])
    ensures WordEnd(s) == k
  {
    if k > 0 {
      assert !IsSpace(s[0]);
      assert forall i :: 0 <= i < k - 1 ==> s[1..][i] == s[i + 1];
      WordEndAt(s[1..], k - 1);
    }
  }
}
