/**
 * The moderation relay: a dump channel where incoming texts are staged for
 * review, a set of forward channels that approved texts are broadcast to,
 * and the map of staged texts keyed by the message id the dump channel gave
 * their rendering.  Every handler runs to completion before the next event
 * is taken, so each is one atomic method on the relay's state.  Instead of
 * talking to the chat service, a handler returns the `Outcome` it produces:
 * the replies it sends to the triggering chat, the rendering it tries to
 * post to the dump channel, its send attempts to forward channels and whether it strips
 * the inline buttons.
 */
module Bot {
  import opened Wrappers
  import opened Callback
  import opened Dispatch

  /** The one account allowed to configure the relay and to moderate. */
  const OwnerId: int := 7403104782

  /** Replies to the chat the event came from. */
  datatype Notice =
    | NotAuthorized           // "🚫 You are not authorized to use this command."
    | DumpSet(channel: int)   // "✅ Dump channel set to <channel>"
    | SetUsage                // "❌ Usage: /set <channel_id>"
    | ChannelAdded(channel: int) // "✅ Channel <channel> added to forward list"
    | AddUsage                // "❌ Usage: /add <channel_id>"
    | Forwarded               // "✅ Message forwarded to allowed channels."
    | NoPending               // "❌ No pending message found."
    | ReplyToAllow            // "❌ Reply to a message with /allow to approve it."
    | DumpNotSet              // "❌ Dump channel not set. Use /set <channel_id>."
    | NotModerator            // "🚫 You are not authorized to moderate this message."
    | ButtonForwarded         // "✅ Message forwarded."
    | Rejected                // "❌ Message rejected."

  /** A text posted to the dump channel with its Allow and Reject buttons. */
  datatype Rendering = Rendering(chat: int, text: string, allowData: string, rejectData: string)

  /**
   * Everything a handler sends out.  `staged` is the rendering the handler
   * tries to post to the dump channel, whether or not the post succeeds.
   */
  datatype Outcome = Outcome(replies: seq<Notice>, staged: Option<Rendering>, sends: seq<Attempt>, markupRemoved: bool)

  /** A handler whose only effect is one reply. */
  function Only(n: Notice): Outcome {
    Outcome([n], None, [], false)
  }

  /** The rendering the intake handler posts for `text` in `chat`. */
  function Staging(chat: int, text: string): Rendering {
    Rendering(chat, text, AllowData(text), RejectTag)
  }

  /** Python truthiness of the dump channel id: unset and 0 both count as "not set". */
  predicate DumpConfigured(dump: Option<int>) {
    dump.Some? && dump.value != 0
  }

  class Relay {
    const owner: int := OwnerId
    var dump: Option<int>
    var channels: set<int>
    var pending: map<int, string>

    /** The state at start-up: no dump channel, no forward channels, nothing staged. */
    constructor ()
      ensures dump == None && channels == {} && pending == map[]
    {
      dump := None;
      channels := {};
      pending := map[];
    }

    /** The owner gate in front of the configuration and moderation commands. */
    predicate Authorized(actor: int) {
      actor == owner
    }

    /** `/set <channel_id>`: choose the dump channel. */
    method SetDump(actor: int, args: seq<int>) returns (out: Outcome)
      modifies this
      ensures channels == old(channels) && pending == old(pending)
      ensures !Authorized(actor) ==> dump == old(dump) && out == Only(NotAuthorized)
      ensures Authorized(actor) && args == [] ==> dump == old(dump) && out == Only(SetUsage)
      ensures Authorized(actor) && args != [] ==> dump == Some(args[0]) && out == Only(DumpSet(args[0]))
    {
      if !Authorized(actor) {
        return Only(NotAuthorized);
      }
      if args != [] {
        dump := Some(args[0]);
        out := Only(DumpSet(args[0]));
      } else {
        out := Only(SetUsage);
      }
    }

    /** `/add <channel_id>`: add a forward channel. */
    method AddChannel(actor: int, args: seq<int>) returns (out: Outcome)
      modifies this
      ensures dump == old(dump) && pending == old(pending)
      ensures !Authorized(actor) ==> channels == old(channels) && out == Only(NotAuthorized)
      ensures Authorized(actor) && args == [] ==> channels == old(channels) && out == Only(AddUsage)
      ensures Authorized(actor) && args != [] ==> channels == old(channels) + {args[0]} && out == Only(ChannelAdded(args[0]))
    {
      if !Authorized(actor) {
        return Only(NotAuthorized);
      }
      if args != [] {
        channels := channels + {args[0]};
        out := Only(ChannelAdded(args[0]));
      } else {
        out := Only(AddUsage);
      }
    }

    /**
     * `/allow`, sent as a reply to a staged rendering whose message id is
     * `replyTo`: take the staged text out of `pending` and broadcast it.
     * `failing` says which forward channels refuse the send.
     */
    method Allow(actor: int, replyTo: Option<int>, failing: set<int>) returns (out: Outcome)
      modifies this
      ensures dump == old(dump) && channels == old(channels)
      ensures !Authorized(actor) ==> pending == old(pending) && out == Only(NotAuthorized)
      ensures Authorized(actor) && replyTo.None? ==> pending == old(pending) && out == Only(ReplyToAllow)
      ensures Authorized(actor) && replyTo.Some? && replyTo.value !in old(pending) ==>
                pending == old(pending) && out == Only(NoPending)
      ensures Authorized(actor) && replyTo.Some? && replyTo.value in old(pending) ==>
                pending == old(pending) - {replyTo.value} &&
                out.replies == [Forwarded] && out.staged.None? && !out.markupRemoved &&
                Broadcasts(out.sends, channels, old(pending)[replyTo.value], failing)
    {
      if !Authorized(actor) {
        return Only(NotAuthorized);
      }
      match replyTo
      case None =>
        out := Only(ReplyToAllow);
      case Some(id) =>
        if id in pending {
          var text := pending[id];
          pending := pending - {id};
          var report := Broadcast(channels, text, failing);
          out := Outcome([Forwarded], None, report, false);
        } else {
          out := Only(NoPending);
        }
    }

    /**
     * An incoming text from anyone: post it to the dump channel with its
     * buttons and remember it under the id the dump channel assigns.
     * `posted` is that id, or `None` when the post raised, in which case the
     * handler stops there and nothing is staged.
     */
    method HandleMessage(text: string, posted: Option<int>) returns (out: Outcome)
      modifies this
      ensures dump == old(dump) && channels == old(channels)
      ensures !DumpConfigured(dump) ==> pending == old(pending) && out == Only(DumpNotSet)
      ensures DumpConfigured(dump) ==> out == Outcome([], Some(Staging(dump.value, text)), [], false)
      ensures DumpConfigured(dump) && posted.None? ==> pending == old(pending)
      ensures DumpConfigured(dump) && posted.Some? ==> pending == old(pending)[posted.value := text]
    {
      if !DumpConfigured(dump) {
        return Only(DumpNotSet);
      }
      out := Outcome([], Some(Staging(dump.value, text)), [], false);
      if posted.Some? {
        pending := pending[posted.value := text];
      }
    }

    /**
     * A press on one of a rendering's inline buttons.  Only the owner may
     * moderate; the Allow button broadcasts the text carried in its own data
     * and the Reject button does nothing but strip the buttons.  Neither
     * looks at or changes `pending`.
     */
    method Press(actor: int, data: string, failing: set<int>) returns (out: Outcome)
      ensures !Authorized(actor) ==> out == Only(NotModerator)
      ensures Authorized(actor) && Decide(data).Approve? ==>
                out.replies == [ButtonForwarded] && out.staged.None? && out.markupRemoved &&
                Broadcasts(out.sends, channels, Decide(data).text, failing)
      ensures Authorized(actor) && Decide(data).Reject? ==> out == Outcome([Rejected], None, [], true)
      ensures Authorized(actor) && Decide(data).Ignore? ==> out == Outcome([], None, [], false)
    {
      if !Authorized(actor) {
        return Only(NotModerator);
      }
      match Decide(data)
      case Approve(text) =>
        var report := Broadcast(channels, text, failing);
        out := Outcome([ButtonForwarded], None, report, true);
      case Reject =>
        out := Outcome([Rejected], None, [], true);
      case Ignore =>
        out := Outcome([], None, [], false);
    }
  }

  /**
   * A staged text is consumed at most once: the first `/allow` on it
   * broadcasts it and takes it out of `pending`, a second one finds nothing
   * and sends nothing.
   */
  method AllowTwice(relay: Relay, id: int, failing: set<int>) returns (first: Outcome, second: Outcome)
    requires id in relay.pending
    modifies relay
    ensures id !in relay.pending
    ensures first.replies == [Forwarded] && Broadcasts(first.sends, relay.channels, old(relay.pending[id]), failing)
    ensures second == Only(NoPending)
  {
    first := relay.Allow(relay.owner, Some(id), failing);
    second := relay.Allow(relay.owner, Some(id), failing);
  }

  /**
   * One run through the relay: the owner sets dump channel 111 and forward
   * channels 222 and 333, someone sends "hello", which is staged under the
   * id 5 the dump channel assigns; the owner then presses Allow, presses
   * Reject, and finally replies `/allow` to the same rendering.  Because the
   * buttons never touch `pending`, that last `/allow` broadcasts "hello" a
   * second time.
   */
  method Walkthrough(failing: set<int>) returns (intake: Outcome, pressed: Outcome, rejected: Outcome, allowed: Outcome)
    ensures intake.staged == Some(Rendering(111, "hello", "allow:hello", "reject"))
    ensures pressed.markupRemoved && Broadcasts(pressed.sends, {222, 333}, "hello", failing)
    ensures rejected.markupRemoved && rejected.sends == []
    ensures allowed.replies == [Forwarded] && Broadcasts(allowed.sends, {222, 333}, "hello", failing)
  {
    var relay := new Relay();
    var _ := relay.SetDump(OwnerId, [111]);
    var _ := relay.AddChannel(OwnerId, [222]);
    var _ := relay.AddChannel(OwnerId, [333]);
    intake := relay.HandleMessage("hello", Some(5));
    assert AllowData("hello") == "allow:hello";
    assert !Contains("hello", AllowTag);
    AllowDataRoundTrip("hello");
    pressed := relay.Press(OwnerId, intake.staged.value.allowData, failing);
    rejected := relay.Press(OwnerId, intake.staged.value.rejectData, failing);
    allowed := relay.Allow(OwnerId, Some(5), failing);
  }
}
