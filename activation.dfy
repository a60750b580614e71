/** The chatbot's on/off switch: a single row named `chatbot` in the
    `ai_activations` table, found by name and created on first use. */
module Activation {
  import opened Php

  /** One row of `ai_activations`; `lastUpdatedAt` is a clock reading. */
  datatype Activation = Activation(id: nat, name: string, isActive: bool, description: string, lastUpdatedAt: int)

  const ChatbotName := "chatbot"
  const ChatbotDescription := "Main chatbot AI activation status"

  /** The row `create` inserts for the chatbot. */
  function NewChatbot(id: nat, isActive: bool, now: int): (a: Activation)
    ensures a.id == id && a.name == ChatbotName && a.isActive == isActive && a.lastUpdatedAt == now
  {
    Activation(id, ChatbotName, isActive, ChatbotDescription, now)
  }

  /** `where('name', 'chatbot')->first()`: the chatbot row with the lowest
      id, as an index. */
  function FindChatbot(records: seq<Activation>): (r: Option<nat>)
    ensures r.Some? ==> r.value < |records| && records[r.value].name == ChatbotName
    ensures r.Some? ==> forall j :: 0 <= j < r.value ==> records[j].name != ChatbotName
    ensures r.None? <==> forall j :: 0 <= j < |records| ==> records[j].name != ChatbotName
  {
    if records == [] then None
    else if records[0].name == ChatbotName then Some(0)
    else
      var r := FindChatbot(records[1..]);
      if r.None? then None else Some(r.value + 1)
  }

  /** The table after `getChatbotStatus`: unchanged when the row exists,
      otherwise with an active chatbot row appended. */
  function WithChatbot(records: seq<Activation>, now: int): seq<Activation>
  {
    if FindChatbot(records).Some? then records
    else records + [NewChatbot(|records| + 1, true, now)]
  }

  /** The table after `toggleChatbotStatus(status)`: the existing row updated
      in place, or a new row holding `status`. */
  function Toggled(records: seq<Activation>, status: bool, now: int): seq<Activation>
  {
    match FindChatbot(records)
    case Some(i) => records[i := records[i].(isActive := status, lastUpdatedAt := now)]
    case None => records + [NewChatbot(|records| + 1, status, now)]
  }

  /** How many rows are named `chatbot`. */
  function ChatbotCount(records: seq<Activation>): nat
  {
    if records == [] then 0
    else ChatbotCount(records[..|records| - 1]) + (if records[|records| - 1].name == ChatbotName then 1 else 0)
  }

  lemma {:induction false} CountAppend(records: seq<Activation>, a: Activation)
    ensures ChatbotCount(records + [a]) == ChatbotCount(records) + (if a.name == ChatbotName then 1 else 0)
  {
    assert (records + [a])[..|records|] == records;
  }

  /** Replacing a row by one with the same name keeps the count. */
  lemma {:induction false} CountUpdate(records: seq<Activation>, i: nat, a: Activation)
    requires i < |records| && a.name == records[i].name
    ensures ChatbotCount(records[i := a]) == ChatbotCount(records)
  {
    var last := |records| - 1;
    if i < last {
      assert records[i := a][..last] == records[..last][i := a];
      CountUpdate(records[..last], i, a);
    } else {
      assert records[i := a][..last] == records[..last];
    }
  }

  /** No chatbot row means a count of zero. */
  lemma {:induction false} CountNone(records: seq<Activation>)
    requires FindChatbot(records).None?
    ensures ChatbotCount(records) == 0
  {
    if records != [] {
      var init := records[..|records| - 1];
      assert FindChatbot(init).None? by {
        forall j | 0 <= j < |init| ensures init[j].name != ChatbotName {
          assert init[j] == records[j];
        }
      }
      CountNone(init);
    }
  }

  /** A chatbot row at index `i` means a count of at least one. */
  lemma {:induction false} CountSome(records: seq<Activation>, i: nat)
    requires i < |records| && records[i].name == ChatbotName
    ensures ChatbotCount(records) >= 1
  {
    var last := |records| - 1;
    if i < last {
      assert records[..last][i] == records[i];
      CountSome(records[..last], i);
    }
  }

  /** Sequential calls never create a second chatbot row: after a lookup or
      a toggle there is exactly one, provided there was at most one. */
  lemma {:induction false} SingleChatbotRecord(records: seq<Activation>, status: bool, now: int)
    requires ChatbotCount(records) <= 1
    ensures ChatbotCount(WithChatbot(records, now)) == 1
    ensures ChatbotCount(Toggled(records, status, now)) == 1
  {
    match FindChatbot(records)
    case Some(i) =>
      CountSome(records, i);
      CountUpdate(records, i, records[i].(isActive := status, lastUpdatedAt := now));
    case None =>
      CountNone(records);
      CountAppend(records, NewChatbot(|records| + 1, true, now));
      CountAppend(records, NewChatbot(|records| + 1, status, now));
  }

  /** The row a lookup or toggle reads is found again afterwards, at the
      same place when it existed and at the end when it was created. */
  lemma {:induction false} ChatbotFoundAfter(records: seq<Activation>, status: bool, now: int)
    ensures FindChatbot(Toggled(records, status, now)).Some?
    ensures FindChatbot(WithChatbot(records, now)).Some?
    ensures FindChatbot(records).Some? ==>
      FindChatbot(Toggled(records, status, now)) == FindChatbot(records)
    ensures FindChatbot(records).None? ==>
      FindChatbot(Toggled(records, status, now)) == Some(|records|)
      && FindChatbot(WithChatbot(records, now)) == Some(|records|)
  {
    var t := Toggled(records, status, now);
    var w := WithChatbot(records, now);
    match FindChatbot(records)
    case Some(i) =>
      assert t[i].name == ChatbotName;
      assert forall j :: 0 <= j < i ==> t[j] == records[j];
    case None =>
      assert t[|records|].name == ChatbotName && w[|records|].name == ChatbotName;
      assert forall j :: 0 <= j < |records| ==> t[j] == records[j] && w[j] == records[j];
  }

  /** `getChatbotStatus` after `toggleChatbotStatus(s)` answers `s` and
      creates nothing. */
  lemma {:induction false} StatusAfterToggle(records: seq<Activation>, status: bool, now: int, later: int)
    ensures var t := Toggled(records, status, now);
      WithChatbot(t, later) == t && t[FindChatbot(t).value].isActive == status
  {
    ChatbotFoundAfter(records, status, now);
  }

  /** Toggling to the same value twice: the flag stays `s`, and the second
      toggle changes nothing but `last_updated_at`. */
  lemma {:induction false} ToggleTwice(records: seq<Activation>, status: bool, now1: int, now2: int)
    ensures FindChatbot(Toggled(records, status, now1)).Some?
    ensures var once := Toggled(records, status, now1);
      var i := FindChatbot(once).value;
      Toggled(once, status, now2) == once[i := once[i].(lastUpdatedAt := now2)]
      && Toggled(once, status, now2)[i].isActive == status
  {
    ChatbotFoundAfter(records, status, now1);
  }

  class ActivationTable {
    /** The rows of `ai_activations` in id order. */
    var records: seq<Activation>

    /** Ids follow insertion order and the chatbot row is never duplicated. */
    ghost predicate Valid()
      reads this
    {
      && (forall i :: 0 <= i < |records| ==> records[i].id == i + 1)
      && ChatbotCount(records) <= 1
    }

    constructor()
      ensures Valid() && records == []
    {
      records := [];
    }

    /** `getChatbotStatus`: the chatbot row's flag, creating an active row
        when there is none. */
    method GetChatbotStatus(now: int) returns (active: bool)
      requires Valid()
      modifies this
      ensures Valid()
      ensures records == WithChatbot(old(records), now)
      ensures FindChatbot(old(records)).Some? ==>
        records == old(records) && active == old(records)[FindChatbot(old(records)).value].isActive
      ensures FindChatbot(old(records)).None? ==> active
    {
      var found := FindChatbot(records);
      SingleChatbotRecord(records, true, now);
      if found.None? {
        records := records + [NewChatbot(|records| + 1, true, now)];
        active := true;
      } else {
        active := records[found.value].isActive;
      }
    }

    /** `toggleChatbotStatus`: sets the chatbot row's flag and stamp,
        creating the row when there is none; answers with the row. */
    method ToggleChatbotStatus(status: bool, now: int) returns (a: Activation)
      requires Valid()
      modifies this
      ensures Valid()
      ensures records == Toggled(old(records), status, now)
      ensures a.name == ChatbotName && a.isActive == status && a.lastUpdatedAt == now
      ensures FindChatbot(records).Some? && a == records[FindChatbot(records).value]
    {
      var found := FindChatbot(records);
      SingleChatbotRecord(records, status, now);
      ChatbotFoundAfter(records, status, now);
      if found.None? {
        a := NewChatbot(|records| + 1, status, now);
        records := records + [a];
      } else {
        var i := found.value;
        a := records[i].(isActive := status, lastUpdatedAt := now);
        records := records[i := a];
      }
    }
  }
}
