/** The conversation sidebar's logic (frontend/src/components/ChatHistory.jsx):
    which id a saved chat goes by, which chats are listed, the rename and
    edit-start rules, and the relative day label of a chat's date. */
module ChatList {
  import opened Text
  import opened Domain

  /** A saved chat as the list receives it: a database `_id`, an `id`, or
      both, and a title; a missing field is "". */
  datatype ChatSummary = ChatSummary(dbId: string, id: string, title: string)

  /** `getChatId`: `_id` when set, otherwise `id`. */
  function ChatId(c: ChatSummary): string {
    if c.dbId != "" then c.dbId else c.id
  }

  /** `findIndex` of the first chat going by `id`, or -1. */
  function FindIndex(chats: seq<ChatSummary>, id: string): (i: int)
    ensures -1 <= i < |chats|
    ensures i >= 0 ==> ChatId(chats[i]) == id
    ensures forall j :: 0 <= j < |chats| && (i == -1 || j < i) ==> ChatId(chats[j]) != id
  {
    if |chats| == 0 then -1
    else if ChatId(chats[0]) == id then 0
    else
      var i := FindIndex(chats[1..], id);
      assert forall j :: 0 < j < |chats| ==> chats[j] == chats[1..][j - 1];
      if i == -1 then -1 else i + 1
  }

  /** The filter's test for position `i`: an id is set and no earlier chat
      goes by it. */
  predicate Kept(chats: seq<ChatSummary>, i: nat)
    requires i < |chats|
  {
    ChatId(chats[i]) != "" && FindIndex(chats, ChatId(chats[i])) == i
  }

  lemma KeptIsFirst(chats: seq<ChatSummary>, i: nat)
    requires i < |chats|
    ensures Kept(chats, i) <==> ChatId(chats[i]) != "" && forall j :: 0 <= j < i ==> ChatId(chats[j]) != ChatId(chats[i])
  {
  }

  /** The positions the filter keeps from `from` on, in increasing order. */
  function KeptFrom(chats: seq<ChatSummary>, from: nat): (idx: seq<nat>)
    requires from <= |chats|
    decreases |chats| - from
    ensures forall k :: 0 <= k < |idx| ==> from <= idx[k] < |chats|
    ensures forall k, l :: 0 <= k < l < |idx| ==> idx[k] < idx[l]
  {
    if from == |chats| then []
    else
      var rest := KeptFrom(chats, from + 1);
      var idx := (if Kept(chats, from) then [from] else []) + rest;
      assert forall k :: 0 <= k < |idx| && k >= |idx| - |rest| ==> idx[k] == rest[k - (|idx| - |rest|)];
      idx
  }

  /** The kept positions are exactly those the filter's test accepts. */
  lemma {:induction false} KeptFromMembers(chats: seq<ChatSummary>, from: nat)
    requires from <= |chats|
    decreases |chats| - from
    ensures forall j :: j in KeptFrom(chats, from) <==> from <= j < |chats| && Kept(chats, j)
  {
    if from < |chats| {
      KeptFromMembers(chats, from + 1);
      var rest := KeptFrom(chats, from + 1);
      assert KeptFrom(chats, from) == (if Kept(chats, from) then [from] else []) + rest;
    }
  }

  /** The list shown in the sidebar: chats with an id, no two sharing one,
      picked in order from the input, with every id that occurs listed by
      its first chat. */
  function VisibleChats(chats: seq<ChatSummary>): (v: seq<ChatSummary>)
    ensures forall k :: 0 <= k < |v| ==> ChatId(v[k]) != "" && v[k] in chats
    ensures forall k, l :: 0 <= k < l < |v| ==> ChatId(v[k]) != ChatId(v[l])
    ensures forall j :: 0 <= j < |chats| && ChatId(chats[j]) != "" ==>
      var first := FindIndex(chats, ChatId(chats[j]));
      0 <= first <= j && chats[first] in v
    ensures var idx := KeptFrom(chats, 0); |v| == |idx| && forall k :: 0 <= k < |v| ==> v[k] == chats[idx[k]]
  {
    var idx := KeptFrom(chats, 0);
    var v := seq(|idx|, k requires 0 <= k < |idx| => chats[idx[k]]);
    KeptSelection(chats, idx, v);
    v
  }

  /** The chats at the kept positions have set, distinct ids, and every id
      is represented by its first chat. */
  lemma KeptSelection(chats: seq<ChatSummary>, idx: seq<nat>, v: seq<ChatSummary>)
    requires idx == KeptFrom(chats, 0)
    requires |v| == |idx| && forall k :: 0 <= k < |v| ==> v[k] == chats[idx[k]]
    ensures forall k :: 0 <= k < |v| ==> ChatId(v[k]) != "" && v[k] in chats
    ensures forall k, l :: 0 <= k < l < |v| ==> ChatId(v[k]) != ChatId(v[l])
    ensures forall j :: 0 <= j < |chats| && ChatId(chats[j]) != "" ==>
      var first := FindIndex(chats, ChatId(chats[j]));
      0 <= first <= j && chats[first] in v
  {
    KeptFromMembers(chats, 0);
    KeptPositions(chats, idx);
    KeptIdsSet(chats, idx, v);
    KeptIdsDistinct(chats, idx, v);
    KeptCoversIds(chats, idx, v);
  }

  lemma KeptPositions(chats: seq<ChatSummary>, idx: seq<nat>)
    requires forall j :: j in idx <==> 0 <= j < |chats| && Kept(chats, j)
    ensures forall k :: 0 <= k < |idx| ==> idx[k] < |chats| && Kept(chats, idx[k])
  {
    forall k | 0 <= k < |idx| ensures idx[k] < |chats| && Kept(chats, idx[k]) {
      assert idx[k] in idx;
    }
  }

  lemma KeptIdsSet(chats: seq<ChatSummary>, idx: seq<nat>, v: seq<ChatSummary>)
    requires forall k :: 0 <= k < |idx| ==> idx[k] < |chats| && Kept(chats, idx[k])
    requires |v| == |idx| && forall k :: 0 <= k < |v| ==> v[k] == chats[idx[k]]
    ensures forall k :: 0 <= k < |v| ==> ChatId(v[k]) != "" && v[k] in chats
  {
  }

  lemma KeptIdsDistinct(chats: seq<ChatSummary>, idx: seq<nat>, v: seq<ChatSummary>)
    requires forall k :: 0 <= k < |idx| ==> idx[k] < |chats| && Kept(chats, idx[k])
    requires forall k, l :: 0 <= k < l < |idx| ==> idx[k] < idx[l]
    requires |v| == |idx| && forall k :: 0 <= k < |v| ==> v[k] == chats[idx[k]]
    ensures forall k, l :: 0 <= k < l < |v| ==> ChatId(v[k]) != ChatId(v[l])
  {
    forall k, l | 0 <= k < l < |v| ensures ChatId(v[k]) != ChatId(v[l]) {
      assert Kept(chats, idx[k]) && Kept(chats, idx[l]);
      assert idx[k] < idx[l];
    }
  }

  lemma KeptCoversIds(chats: seq<ChatSummary>, idx: seq<nat>, v: seq<ChatSummary>)
    requires forall j :: j in idx <==> 0 <= j < |chats| && Kept(chats, j)
    requires forall k :: 0 <= k < |idx| ==> idx[k] < |chats|
    requires |v| == |idx| && forall k :: 0 <= k < |v| ==> v[k] == chats[idx[k]]
    ensures forall j :: 0 <= j < |chats| && ChatId(chats[j]) != "" ==>
      var first := FindIndex(chats, ChatId(chats[j]));
      0 <= first <= j && chats[first] in v
  {
    forall j | 0 <= j < |chats| && ChatId(chats[j]) != ""
      ensures var first := FindIndex(chats, ChatId(chats[j])); 0 <= first <= j && chats[first] in v
    {
      var first := FindIndex(chats, ChatId(chats[j]));
      assert Kept(chats, first);
      assert first in idx;
      var k :| 0 <= k < |idx| && idx[k] == first;
      assert v[k] == chats[first];
    }
  }

  /** The listed chats are an order-preserving selection of the input. */
  lemma VisibleIsSubsequence(chats: seq<ChatSummary>)
    ensures var v := VisibleChats(chats);
      exists idx: seq<nat> ::
        && |idx| == |v|
        && (forall k :: 0 <= k < |idx| ==> idx[k] < |chats| && v[k] == chats[idx[k]])
        && (forall k, l :: 0 <= k < l < |idx| ==> idx[k] < idx[l])
  {
    var idx := KeptFrom(chats, 0);
    assert forall k :: 0 <= k < |idx| ==> idx[k] < |chats|;
  }

  /** On a list whose ids are set and distinct, every position is kept. */
  lemma {:induction false} KeptFromAll(chats: seq<ChatSummary>, from: nat)
    requires from <= |chats|
    requires forall k :: 0 <= k < |chats| ==> ChatId(chats[k]) != ""
    requires forall k, l :: 0 <= k < l < |chats| ==> ChatId(chats[k]) != ChatId(chats[l])
    decreases |chats| - from
    ensures |KeptFrom(chats, from)| == |chats| - from
    ensures forall k :: 0 <= k < |chats| - from ==> KeptFrom(chats, from)[k] == from + k
  {
    if from < |chats| {
      KeptFromAll(chats, from + 1);
      KeptIsFirst(chats, from);
      assert Kept(chats, from);
      var rest := KeptFrom(chats, from + 1);
      assert KeptFrom(chats, from) == [from] + rest;
      ConsecutiveFrom(from, rest);
    }
  }

  /** `from` followed by the positions counting up from `from + 1`. */
  lemma ConsecutiveFrom(from: nat, rest: seq<nat>)
    requires forall k :: 0 <= k < |rest| ==> rest[k] == from + 1 + k
    ensures forall k :: 0 <= k < |rest| + 1 ==> ([from] + rest)[k] == from + k
  {
    forall k | 0 < k < |rest| + 1 ensures ([from] + rest)[k] == from + k {
      assert ([from] + rest)[k] == rest[k - 1];
    }
  }

  /** Filtering the shown list again changes nothing. */
  lemma VisibleIdempotent(chats: seq<ChatSummary>)
    ensures VisibleChats(VisibleChats(chats)) == VisibleChats(chats)
  {
    ListedStaysListed(VisibleChats(chats));
  }

  /** A list whose ids are set and distinct is shown unchanged. */
  lemma ListedStaysListed(v: seq<ChatSummary>)
    requires forall k :: 0 <= k < |v| ==> ChatId(v[k]) != ""
    requires forall k, l :: 0 <= k < l < |v| ==> ChatId(v[k]) != ChatId(v[l])
    ensures VisibleChats(v) == v
  {
    KeptFromAll(v, 0);
    SelectEverything(v, KeptFrom(v, 0), VisibleChats(v));
  }

  /** Picking every position in order gives the list back. */
  lemma SelectEverything(v: seq<ChatSummary>, idx: seq<nat>, picked: seq<ChatSummary>)
    requires |idx| == |v| && forall k :: 0 <= k < |v| ==> idx[k] == k
    requires |picked| == |idx| && forall k :: 0 <= k < |picked| ==> idx[k] < |v| && picked[k] == v[idx[k]]
    ensures picked == v
  {
  }

  /** The rename field's state: which chat is being edited ("" for none)
      and the text in the field. */
  datatype EditState = EditState(editingChatId: string, editTitle: string)

  /** A call of `onRenameChat(chatId, title)`. */
  datatype RenameCall = RenameCall(chatId: string, title: string)

  datatype RenameResult = RenameResult(call: Option<RenameCall>, state: EditState)

  /** `handleRename`: a title that is not blank is passed on trimmed and
      the editor closes; a blank one changes nothing. */
  function Rename(s: EditState, chatId: string): (r: RenameResult)
    ensures r.call.Some? <==> !Blank(s.editTitle)
    ensures r.call.Some? ==>
      && r.call.value == RenameCall(chatId, Trim(s.editTitle))
      && |r.call.value.title| > 0
      && !IsSpace(r.call.value.title[0]) && !IsSpace(r.call.value.title[|r.call.value.title| - 1])
      && r.state == EditState("", "")
    ensures r.call.None? ==> r.state == s
  {
    if Trim(s.editTitle) != "" then RenameResult(Some(RenameCall(chatId, Trim(s.editTitle))), EditState("", ""))
    else RenameResult(None, s)
  }

  /** Renaming with a title that was trimmed already sends the same call:
      surrounding white space never reaches the server. */
  lemma RenameTrimStable(s: EditState, chatId: string)
    ensures Rename(s.(editTitle := Trim(s.editTitle)), chatId).call == Rename(s, chatId).call
  {
    TrimIdempotent(s.editTitle);
  }

  const UntitledChat: string := "Untitled Chat"

  /** `startEdit`: edit the chat under its id, starting from its title or
      the placeholder title. */
  function StartEdit(chat: ChatSummary): (s: EditState)
    ensures s.editingChatId == ChatId(chat)
    ensures s.editTitle != ""
    ensures chat.title != "" ==> s.editTitle == chat.title
    ensures chat.title == "" ==> s.editTitle == UntitledChat
  {
    EditState(ChatId(chat), if chat.title != "" then chat.title else UntitledChat)
  }

  /** Confirming an edit without typing renames an untitled chat to the
      placeholder title, and a titled one to its trimmed title when that is
      not blank. */
  lemma ConfirmUntouchedEdit(chat: ChatSummary)
    ensures chat.title == "" ==> Rename(StartEdit(chat), ChatId(chat)).call == Some(RenameCall(ChatId(chat), UntitledChat))
    ensures chat.title != "" && !Blank(chat.title) ==>
      Rename(StartEdit(chat), ChatId(chat)).call == Some(RenameCall(ChatId(chat), Trim(chat.title)))
  {
    if chat.title == "" {
      var t := UntitledChat;
      assert !IsSpace(t[0]) && !IsSpace(t[|t| - 1]);
      assert SkipSpaces(t, 0) == 0;
      assert DropSpaces(t, 0, |t|) == |t|;
      assert t[0..|t|] == t;
    }
  }

  const MsPerDay: nat := 1000 * 60 * 60 * 24

  /** The label `formatDate` shows: a relative text, or the locale
      rendering of the date, which is kept abstract. */
  datatype DateLabel = Relative(text: string) | LocaleDate

  /** `Math.floor(diff / 86400000)`: for a positive divisor Dafny's
      Euclidean division is the floor. */
  function DaysAgo(diffMs: int): (d: int)
    ensures d * MsPerDay <= diffMs < (d + 1) * MsPerDay
  {
    diffMs / MsPerDay
  }

  /** `formatDate` for a chat dated `diffMs` milliseconds before now. */
  function FormatDate(diffMs: int): (shown: DateLabel)
    ensures shown == Relative("Today") <==> 0 <= diffMs < MsPerDay
    ensures shown == Relative("Yesterday") <==> MsPerDay <= diffMs < 2 * MsPerDay
    ensures shown == LocaleDate <==> diffMs >= 7 * MsPerDay
    ensures 2 * MsPerDay <= diffMs < 7 * MsPerDay ==> shown == Relative(NatToString(diffMs / MsPerDay) + " days ago")
    ensures diffMs < 0 ==> DaysAgo(diffMs) < 0 && shown == Relative(IntToString(DaysAgo(diffMs)) + " days ago")
    ensures diffMs < 0 ==> shown.Relative? && |shown.text| > 0 && shown.text[0] == '-'
  {
    var days := DaysAgo(diffMs);
    if days == 0 then Relative("Today")
    else if days == 1 then Relative("Yesterday")
    else if days < 7 then
      var t := IntToString(days) + " days ago";
      assert t[0] == IntToString(days)[0];
      Relative(t)
    else LocaleDate
  }
}
