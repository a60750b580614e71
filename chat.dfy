/** The chat screen's rules: the avatar initials shown for a customer, which
    column a sent message is stored in and whether it is forwarded to the
    automation hook, and the text previewing a conversation. */
module Chat {
  import opened Php

  // ---------------------------------------------------------------------
  // Avatar initials

  /** `Str::substr($word, 0, 1)`: the first character, or nothing. */
  function Head(w: string): (h: string)
    ensures |h| <= 1 && (w != [] ==> h == [w[0]])
  {
    if w == [] then [] else [w[0]]
  }

  /** `Str::substr($name, 0, 2)` */
  function TakeTwo(s: string): (t: string)
    ensures |t| <= 2 && |t| <= |s| && (s != [] <==> t != [])
    ensures forall i :: 0 <= i < |t| ==> t[i] == s[i]
  {
    if |s| <= 2 then s else s[..2]
  }

  /** The upper-cased first character of every word, in order. */
  function FirstLetters(words: seq<string>): string
  {
    if words == [] then []
    else FirstLetters(words[..|words| - 1]) + Upper(Head(words[|words| - 1]))
  }

  /** Every character of `FirstLetters` is an upper-cased one. */
  lemma {:induction false} FirstLettersUpper(words: seq<string>)
    ensures forall i :: 0 <= i < |FirstLetters(words)| ==> !('a' <= FirstLetters(words)[i] <= 'z')
  {
    if words != [] {
      FirstLettersUpper(words[..|words| - 1]);
    }
  }

  /** The letters of a prefix of the words are a prefix of the letters. */
  lemma {:induction false} FirstLettersPrefix(words: seq<string>, k: nat)
    requires k <= |words|
    ensures |FirstLetters(words[..k])| <= |FirstLetters(words)|
    ensures FirstLetters(words)[..|FirstLetters(words[..k])|] == FirstLetters(words[..k])
  {
    if k < |words| {
      var init := words[..|words| - 1];
      assert init[..k] == words[..k];
      FirstLettersPrefix(init, k);
    } else {
      assert words[..k] == words;
    }
  }

  /** `explode(' ', a . ' ' . rest)` with no space in `a` starts with `a`. */
  lemma {:induction false} ExplodeWord(a: string, rest: string)
    requires forall i :: 0 <= i < |a| ==> a[i] != ' '
    ensures Explode(a + [' '] + rest, ' ') == [a] + Explode(rest, ' ')
  {
    if a != [] {
      var s := a + [' '] + rest;
      assert s[1..] == a[1..] + [' '] + rest;
      ExplodeWord(a[1..], rest);
      assert [s[0]] + a[1..] == a;
    }
  }

  /** A string with no space is one word. */
  lemma {:induction false} ExplodeSingle(a: string)
    requires forall i :: 0 <= i < |a| ==> a[i] != ' '
    ensures Explode(a, ' ') == [a]
  {
    if a != [] {
      ExplodeSingle(a[1..]);
      assert [a[0]] + a[1..] == a;
    }
  }

  /** `generateAvatar`: the first two initials; when they are falsy (none,
      or the single initial "0"), the name's first two characters
      upper-cased. */
  function Avatar(name: string): (r: string)
    ensures |r| <= 2
  {
    var letters := FirstLetters(Explode(name, ' '));
    var initials := TakeTwo(letters);
    if Truthy(Some(initials)) then initials else Upper(TakeTwo(name))
  }

  /** Only an empty name has an empty avatar. */
  lemma {:induction false} AvatarEmpty(name: string)
    ensures Avatar(name) == [] <==> name == []
  {
    if name == [] {
      var words: seq<string> := [[]];
      assert Explode(name, ' ') == words;
      assert words[..0] == [];
      assert FirstLetters(words) == [];
    }
  }

  /** One more word adds its upper-cased first character. */
  lemma {:induction false} FirstLettersStep(words: seq<string>, k: nat)
    requires k < |words|
    ensures FirstLetters(words[..k + 1]) == FirstLetters(words[..k]) + Upper(Head(words[k]))
  {
    assert words[..k + 1][..k] == words[..k];
  }

  /** The avatar holds no lower-case letter. */
  lemma {:induction false} AvatarUpperCase(name: string)
    ensures forall i :: 0 <= i < |Avatar(name)| ==> !('a' <= Avatar(name)[i] <= 'z')
  {
    FirstLettersUpper(Explode(name, ' '));
  }

  /** Two space-separated words give the upper-cased first letter of each. */
  lemma {:induction false} TwoWordAvatar(first: string, last: string)
    requires first != [] && last != []
    requires forall i :: 0 <= i < |first| ==> first[i] != ' '
    requires forall i :: 0 <= i < |last| ==> last[i] != ' '
    ensures Avatar(first + " " + last) == [UpperChar(first[0]), UpperChar(last[0])]
  {
    ExplodeWord(first, last);
    ExplodeSingle(last);
    var words := [first, last];
    assert Explode(first + " " + last, ' ') == words;
    FirstLettersStep(words, 0);
    FirstLettersStep(words, 1);
    assert words[..0] == [] && words[..2] == words;
    assert Upper(Head(first)) == [UpperChar(first[0])];
    assert Upper(Head(last)) == [UpperChar(last[0])];
  }

  /** A single word gives its upper-cased first letter, unless that is "0". */
  lemma {:induction false} OneWordAvatar(word: string)
    requires word != [] && word[0] != '0'
    requires forall i :: 0 <= i < |word| ==> word[i] != ' '
    ensures Avatar(word) == [UpperChar(word[0])]
  {
    ExplodeSingle(word);
    FirstLettersStep([word], 0);
    assert [word][..0] == [] && [word][..1] == [word];
    assert Upper(Head(word)) == [UpperChar(word[0])];
    assert FirstLetters([word]) == [UpperChar(word[0])];
    assert UpperChar(word[0]) != '0';
    assert TakeTwo([UpperChar(word[0])]) != "0";
  }

  /** The avatar loop: upper-cased first characters of the words, stopping
      once two are collected. */
  method CollectInitials(words: seq<string>) returns (initials: string)
    ensures initials == TakeTwo(FirstLetters(words))
  {
    initials := "";
    var k := 0;
    while k < |words|
      invariant 0 <= k <= |words|
      invariant initials == FirstLetters(words[..k]) && |initials| < 2
    {
      FirstLettersStep(words, k);
      initials := initials + Upper(Head(words[k]));
      if |initials| >= 2 {
        FirstLettersPrefix(words, k + 1);
        return;
      }
      k := k + 1;
    }
    assert words[..k] == words;
  }

  /** `generateAvatar`: the collected initials, or the fallback when they
      are falsy. */
  method GenerateAvatar(name: string) returns (avatar: string)
    ensures avatar == Avatar(name)
  {
    var initials := CollectInitials(Explode(name, ' '));
    if Truthy(Some(initials)) {
      avatar := initials;
    } else {
      avatar := Upper(TakeTwo(name));
    }
  }

  // ---------------------------------------------------------------------
  // Sending a message

  /** One row of `message_logs`: exactly one of the two columns carries the
      message, the other is empty. */
  datatype MessageLog = MessageLog(id: nat, customerId: nat, customerMessages: string, aiMessages: string)

  /** The validated `sender` values. */
  predicate IsSender(sender: string)
  {
    sender == "customer" || sender == "ai"
  }

  /** The row `sendMessage` creates for `message` from `sender`. */
  function Routed(id: nat, customerId: nat, sender: string, message: string): (log: MessageLog)
    requires IsSender(sender)
    ensures log.id == id && log.customerId == customerId
    ensures sender == "customer" ==> log.customerMessages == message && log.aiMessages == ""
    ensures sender == "ai" ==> log.aiMessages == message && log.customerMessages == ""
  {
    MessageLog(id, customerId,
               if sender == "customer" then message else "",
               if sender == "ai" then message else "")
  }

  /** A required (non-empty) message lands in exactly one column. */
  lemma {:induction false} ExactlyOneColumn(id: nat, customerId: nat, sender: string, message: string)
    requires IsSender(sender) && message != ""
    ensures var log := Routed(id, customerId, sender, message);
      (log.customerMessages != "") != (log.aiMessages != "")
      && (log.customerMessages == message || log.aiMessages == message)
  {
  }

  // ---------------------------------------------------------------------
  // The conversation preview

  /** The latest row of `customerId`, rows being kept in creation order. */
  function Latest(logs: seq<MessageLog>, customerId: nat): (r: Option<MessageLog>)
    ensures r.Some? ==> r.value in logs && r.value.customerId == customerId
    ensures r.None? <==> forall i :: 0 <= i < |logs| ==> logs[i].customerId != customerId
    // the row is the customer's last one: no later row is theirs
    ensures r.Some? ==>
      exists i :: 0 <= i < |logs| && logs[i] == r.value && (forall j :: i < j < |logs| ==> logs[j].customerId != customerId)
  {
    if logs == [] then None
    else if logs[|logs| - 1].customerId == customerId then Some(logs[|logs| - 1])
    else Latest(logs[..|logs| - 1], customerId)
  }

  /** The conversation list's `last_message`: the AI text when non-empty,
      else the customer's text when non-empty, else a placeholder. */
  function Preview(last: Option<MessageLog>): (text: string)
    ensures last.Some? && !IsEmpty(last.value.aiMessages) ==> text == last.value.aiMessages
    ensures last.Some? && IsEmpty(last.value.aiMessages) && !IsEmpty(last.value.customerMessages) ==>
      text == last.value.customerMessages
    ensures last.None? || (IsEmpty(last.value.aiMessages) && IsEmpty(last.value.customerMessages)) ==>
      text == "No messages yet"
  {
    if last.Some? && !IsEmpty(last.value.aiMessages) then last.value.aiMessages
    else if last.Some? && !IsEmpty(last.value.customerMessages) then last.value.customerMessages
    else "No messages yet"
  }

  class MessageLogTable {
    /** The rows of `message_logs` in creation order. */
    var logs: seq<MessageLog>

    ghost predicate Valid()
      reads this
    {
      forall i :: 0 <= i < |logs| ==> logs[i].id == i + 1
    }

    constructor()
      ensures Valid() && logs == []
    {
      logs := [];
    }

    /** `sendMessage`: stores the message in the sender's column and answers
        whether it is forwarded to the automation hook, which happens only
        when the stored AI text is not `empty`. */
    method SendMessage(customerId: nat, message: string, sender: string) returns (forwarded: bool)
      requires Valid() && IsSender(sender) && message != "" && |message| <= 1000
      modifies this
      ensures Valid()
      ensures logs == old(logs) + [Routed(|old(logs)| + 1, customerId, sender, message)]
      ensures forwarded <==> sender == "ai" && message != "0"
      // the conversation list then previews the message just sent
      ensures Preview(Latest(logs, customerId)) == if message == "0" then "No messages yet" else message
    {
      var log := Routed(|logs| + 1, customerId, sender, message);
      logs := logs + [log];
      forwarded := !IsEmpty(log.aiMessages);
      assert Latest(logs, customerId) == Some(log);
    }
  }
}
