// The user-context outer middlewares of the three generations: each stores
// the event's user and chat (and, in the two newer ones, its thread id) in
// the request context when the update has them, and lets propagation go on.

/** telers/src/middlewares/outer/user_context.rs */
module TelersUserContext {
  import opened Wrappers
  import opened Events
  import opened TelersTypes
  import TelersUpdate
  import RC = RequestContext

  /** The context after `call`. */
  function Entries(entries: map<string, RC.Value>, u: Update): map<string, RC.Value> {
    var k := TelersUpdate.KindOf(u);
    var e1 := if TelersUpdate.KindFrom(k).Some? then entries["event_user" := RC.TelersUserValue(TelersUpdate.KindFrom(k).value)] else entries;
    var e2 := if TelersUpdate.KindChat(k).Some? then e1["event_chat" := RC.TelersChatValue(TelersUpdate.KindChat(k).value)] else e1;
    if TelersUpdate.KindMessageThreadId(k).Some? then e2["event_message_thread_id" := RC.ThreadIdValue(TelersUpdate.KindMessageThreadId(k).value)] else e2
  }

  /** `UserContext::call`. */
  method Call(ctx: RC.Context, u: Update) returns (r: EventReturn)
    modifies ctx
    ensures ctx.entries == Entries(old(ctx.entries), u)
    ensures r == DEFAULT_EVENT_RETURN
  {
    var k := TelersUpdate.KindOf(u);
    var from := TelersUpdate.KindFrom(k);
    if from.Some? {
      ctx.Insert("event_user", RC.TelersUserValue(from.value));
    }
    var chat := TelersUpdate.KindChat(k);
    if chat.Some? {
      ctx.Insert("event_chat", RC.TelersChatValue(chat.value));
    }
    var thread := TelersUpdate.KindMessageThreadId(k);
    if thread.Some? {
      ctx.Insert("event_message_thread_id", RC.ThreadIdValue(thread.value));
    }
    return DEFAULT_EVENT_RETURN;
  }

  /** Each key is written exactly when the update has the matching part,
      with that part as its value; every other key is left alone. */
  lemma EntriesSpec(entries: map<string, RC.Value>, u: Update, other: string)
    requires other != "event_user" && other != "event_chat" && other != "event_message_thread_id"
    ensures var k := TelersUpdate.KindOf(u);
      var after := Entries(entries, u);
      (TelersUpdate.KindFrom(k).Some? ==> after["event_user"] == RC.TelersUserValue(TelersUpdate.KindFrom(k).value))
      && (TelersUpdate.KindFrom(k).None? ==> ("event_user" in after <==> "event_user" in entries))
      && (TelersUpdate.KindChat(k).Some? ==> after["event_chat"] == RC.TelersChatValue(TelersUpdate.KindChat(k).value))
      && (TelersUpdate.KindChat(k).None? ==> ("event_chat" in after <==> "event_chat" in entries))
      && (TelersUpdate.KindMessageThreadId(k).Some? ==>
            after["event_message_thread_id"] == RC.ThreadIdValue(TelersUpdate.KindMessageThreadId(k).value))
      && (TelersUpdate.KindMessageThreadId(k).None? ==>
            ("event_message_thread_id" in after <==> "event_message_thread_id" in entries))
      && (other in after <==> other in entries)
      && (other in entries ==> after[other] == entries[other])
  {
  }
}

/** src/middlewares/outer/user_context.rs */
module SrcUserContext {
  import opened Wrappers
  import opened Events
  import opened SrcTypes
  import SrcUpdate
  import RC = RequestContext

  /** The context after `call`. */
  function Entries(entries: map<string, RC.Value>, u: Update): map<string, RC.Value> {
    var e1 := if SrcUpdate.UserOf(u).Some? then entries["event_user" := RC.SrcUserValue(SrcUpdate.UserOf(u).value)] else entries;
    var e2 := if SrcUpdate.ChatOf(u).Some? then e1["event_chat" := RC.SrcChatValue(SrcUpdate.ChatOf(u).value)] else e1;
    if SrcUpdate.MessageThreadId(u).Some? then e2["event_message_thread_id" := RC.ThreadIdValue(SrcUpdate.MessageThreadId(u).value)] else e2
  }

  /** `UserContext::call`. */
  method Call(ctx: RC.Context, u: Update) returns (r: EventReturn)
    modifies ctx
    ensures ctx.entries == Entries(old(ctx.entries), u)
    ensures r == DEFAULT_EVENT_RETURN
  {
    var user := SrcUpdate.UserOf(u);
    if user.Some? {
      ctx.Insert("event_user", RC.SrcUserValue(user.value));
    }
    var chat := SrcUpdate.ChatOf(u);
    if chat.Some? {
      ctx.Insert("event_chat", RC.SrcChatValue(chat.value));
    }
    var thread := SrcUpdate.MessageThreadId(u);
    if thread.Some? {
      ctx.Insert("event_message_thread_id", RC.ThreadIdValue(thread.value));
    }
    return DEFAULT_EVENT_RETURN;
  }

  /** Each key is written exactly when the update has the matching part,
      with that part as its value; every other key is left alone. */
  lemma EntriesSpec(entries: map<string, RC.Value>, u: Update, other: string)
    requires other != "event_user" && other != "event_chat" && other != "event_message_thread_id"
    ensures var after := Entries(entries, u);
      (SrcUpdate.UserOf(u).Some? ==> after["event_user"] == RC.SrcUserValue(SrcUpdate.UserOf(u).value))
      && (SrcUpdate.UserOf(u).None? ==> ("event_user" in after <==> "event_user" in entries))
      && (SrcUpdate.ChatOf(u).Some? ==> after["event_chat"] == RC.SrcChatValue(SrcUpdate.ChatOf(u).value))
      && (SrcUpdate.ChatOf(u).None? ==> ("event_chat" in after <==> "event_chat" in entries))
      && (SrcUpdate.MessageThreadId(u).Some? ==>
            after["event_message_thread_id"] == RC.ThreadIdValue(SrcUpdate.MessageThreadId(u).value))
      && (SrcUpdate.MessageThreadId(u).None? ==>
            ("event_message_thread_id" in after <==> "event_message_thread_id" in entries))
      && (other in after <==> other in entries)
      && (other in entries ==> after[other] == entries[other])
  {
  }

  /** A channel post alone gives a chat and nothing else: the user and
      thread entries stay as they were. */
  lemma ChannelPostStoresChatOnly(entries: map<string, RC.Value>, id: int, m: Message)
    ensures Entries(entries, EmptyUpdate(id).(channelPost := Some(m))) == entries["event_chat" := RC.SrcChatValue(m.chat)]
  {
    var u := EmptyUpdate(id).(channelPost := Some(m));
    SrcUpdate.ChannelPostOnly(id, m);
    assert SrcUpdate.UserOf(u).None? && SrcUpdate.MessageThreadId(u).None?;
    assert SrcUpdate.ChatOf(u) == Some(m.chat);
  }
}

/** src/dispatcher/middlewares/outer/user_context.rs: user and chat only. */
module DispatcherUserContext {
  import opened Wrappers
  import opened Events
  import opened SrcTypes
  import SrcUpdate
  import RC = RequestContext

  /** The context after `call`. */
  function Entries(entries: map<string, RC.Value>, u: Update): map<string, RC.Value> {
    var e1 := if SrcUpdate.UserOf(u).Some? then entries["event_user" := RC.SrcUserValue(SrcUpdate.UserOf(u).value)] else entries;
    if SrcUpdate.ChatOf(u).Some? then e1["event_chat" := RC.SrcChatValue(SrcUpdate.ChatOf(u).value)] else e1
  }

  /** `UserContext::call`. */
  method Call(ctx: RC.Context, u: Update) returns (r: EventReturn)
    modifies ctx
    ensures ctx.entries == Entries(old(ctx.entries), u)
    ensures r == DEFAULT_EVENT_RETURN
  {
    var user := SrcUpdate.UserOf(u);
    if user.Some? {
      ctx.Insert("event_user", RC.SrcUserValue(user.value));
    }
    var chat := SrcUpdate.ChatOf(u);
    if chat.Some? {
      ctx.Insert("event_chat", RC.SrcChatValue(chat.value));
    }
    return DEFAULT_EVENT_RETURN;
  }

  /** The user and chat keys are written exactly when the update has them;
      no other key, the thread-id key included, ever changes. */
  lemma EntriesSpec(entries: map<string, RC.Value>, u: Update, other: string)
    requires other != "event_user" && other != "event_chat"
    ensures var after := Entries(entries, u);
      (SrcUpdate.UserOf(u).Some? ==> after["event_user"] == RC.SrcUserValue(SrcUpdate.UserOf(u).value))
      && (SrcUpdate.UserOf(u).None? ==> ("event_user" in after <==> "event_user" in entries))
      && (SrcUpdate.ChatOf(u).Some? ==> after["event_chat"] == RC.SrcChatValue(SrcUpdate.ChatOf(u).value))
      && (SrcUpdate.ChatOf(u).None? ==> ("event_chat" in after <==> "event_chat" in entries))
      && (other in after <==> other in entries)
      && (other in entries ==> after[other] == entries[other])
  {
  }
}
