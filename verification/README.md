# Telegram moderation relay, modelled in Dafny

The bot relays texts through a review step. Anyone may send it a text; the
bot posts that text to a *dump channel* together with two inline buttons,
Allow and Reject, and remembers the text under the message id the dump
channel gave the posted copy. The owner (one fixed account) then approves
either by replying `/allow` to the posted copy, which takes the text out of
the pending map and sends it to every *forward channel*, or by pressing
Allow, which sends the text carried in the button's own callback data. The
owner also configures the relay: `/set <id>` chooses the dump channel and
`/add <id>` adds a forward channel. Sends to forward channels are best
effort: a failing channel is logged and the loop moves on.

The model keeps the bot's three pieces of global state as the fields of one
class, `Bot.Relay`: `dump: Option<int>`, `channels: set<int>` and
`pending: map<int, string>`, with the owner id as a constant. Each handler is
a method that takes the acting account and the event's data, updates the
fields as the handler does, and returns an `Outcome`: the replies it sends,
the rendering it tries to post to the dump channel (recorded whether or not
the post succeeds), its send attempts and whether it strips the inline
buttons. Whatever the chat service would decide is an
input: the id the dump channel assigns to a posted rendering (or `None` when
posting raises), and the set of forward channels whose send raises.

Files:

- `wrappers.dfy` — `Option`.
- `callback.dfy` — the Allow button's payload `"allow:" + text`, Python's
  `data.split("allow:")[1]` (via a leftmost-occurrence search), and the
  button handler's reading of callback data as Approve, Reject or nothing.
- `dispatch.dfy` — the per-channel try/except broadcast loop, with the send
  failures taken from an oracle set.
- `bot.dfy` — the relay class, its five handlers, and two client methods
  that chain handlers.

Two behaviours of the code that the model makes explicit:

- The inline buttons never touch `pending`. After the owner presses Allow,
  the entry is still pending, so a later `/allow` reply to the same
  rendering broadcasts the text a second time (`Bot.Walkthrough` proves
  this). After Reject, the entry stays in `pending`, so a later `/allow` on
  that rendering still broadcasts the rejected text.
- Because the Allow button's text is recovered with `split("allow:")[1]`,
  a text that itself contains `"allow:"` is cut at that point when approved
  by button; `Callback.AllowDataRoundTrip` proves the round trip holds
  exactly for texts without `"allow:"`.

Two more behaviours worth noting, both as the code has them: an inline
Reject does not discard the pending entry, and `/allow` without a reply
target answers with its own "reply to a message" notice, not "no pending
message found".

## Model

| member | source | states |
|---|---|---|
| `Callback.Find` | bot.py:87 | the result is the leftmost index at or after `from` where the separator occurs, and `None` exactly when it occurs nowhere from `from` on |
| `Callback.SecondField` | bot.py:87 | `split(sep)[1]` exists exactly when `sep` occurs in the string; the field holds no `sep`, starts right after the first occurrence and ends at the next occurrence (none begins inside it) or at the end of the string |
| `Callback.Decide` | bot.py:86-97 | data is an approval exactly when it starts with `"allow:"`, a rejection exactly when it equals `"reject"`; an approved text follows the leading tag, contains no `"allow:"`, and is followed by `"allow:"` or by the end of the data |
| `Callback.DecideUnique` | bot.py:87 | any text meeting those three conditions is the one `Decide` extracts, so the conditions fully describe `split("allow:")[1]` |
| `Callback.AllowDataRoundTrip` | bot.py:68 | the text put into the Allow button's data comes back out unchanged if and only if it contains no `"allow:"` |
| `Dispatch.Broadcast` | bot.py:52-56 | every channel of the target set is tried exactly once with the text (as many attempts as channels, none repeated, none outside the set), an attempt fails exactly when the oracle says so whatever happened to the others, and the reached channels are the targets minus the failing ones |
| `Dispatch.BroadcastDelivers` | bot.py:52-56 | in any complete broadcast the channels reached are exactly the targets that do not fail |
| `Bot.Relay.constructor` | bot.py:14-16 | the relay starts with no dump channel, no forward channels and nothing pending |
| `Bot.Relay.SetDump` | bot.py:28-35 | a non-owner changes nothing and gets the not-authorized reply; the owner with an argument sets the dump channel to exactly the first argument; with none, nothing changes and the usage reply is sent; forward channels and pending never change |
| `Bot.Relay.AddChannel` | bot.py:37-44 | a non-owner changes nothing and gets the not-authorized reply; the owner with an argument makes the forward set the old set plus that id (a no-op for a known id); with none, nothing changes and the usage reply is sent |
| `Bot.Relay.Allow` | bot.py:46-61 | a non-owner changes nothing and sends nothing; without a reply target or with an id not pending, nothing changes and only the matching reply is sent; with a pending id, exactly that key is removed, its text is broadcast to every forward channel independently of failures, and the success reply is sent regardless |
| `Bot.Relay.HandleMessage` | bot.py:63-74 | with the dump channel unset or 0, `pending` is unchanged and the "dump channel not set" reply is sent; otherwise the text is posted to the dump channel with Allow data `"allow:" + text` and Reject data `"reject"`, and if the post yields an id, exactly that key is set to the text |
| `Bot.Relay.Press` | bot.py:76-97 | a non-owner gets only the rejection reply, no send and no button removal; Allow data broadcasts the text `Decide` extracts and strips the buttons; `"reject"` strips the buttons and sends nothing; other data does nothing; `pending` is never touched |
| `Bot.AllowTwice` | bot.py:50-59 | a second `/allow` on the same id, after the first one broadcast it, answers "no pending message found" and sends nothing |
| `Bot.Walkthrough` | bot.py:63-97 | after `/set 111`, `/add 222`, `/add 333` and an incoming "hello", the staged rendering carries `allow:hello`; pressing Allow reaches 222 and 333 and strips the buttons; Reject sends nothing; a later `/allow` on the same rendering broadcasts "hello" again |

## Left out

- The chat service itself (`send_message`, `reply_text`, `edit_message_reply_markup`, `query.answer` at bot.py:78): foreign library calls, modelled only as the fields of `Outcome`; the answer to the button press, which always happens first, is not recorded.
- `Outcome` does not record the order of a handler's effects across kinds (the sends always come before the reply in the code); the order of sends within a broadcast is the set's iteration order and is deliberately left open.
- The wording of replies: each reply is a `Notice` constructor (the exact wording is noted beside it), not rendered text.
- Parsing of command arguments with `int()` (bot.py:32, 40): arguments arrive as integers; the `ValueError` of a non-numeric argument is unhandled library behaviour.
- Exceptions outside the broadcast loops (a failing reply, a failing button removal): they abort the handler in the code and are not modelled; a failing post to the dump channel is modelled as `posted == None`.
- Telegram's limits on message and callback-data size: a too-long text makes the post fail, which the `posted == None` input covers without naming the cause.
- Logging, `main()` handler registration, polling and the `BOT_TOKEN` lookup (bot.py:3-10, 99-112): plumbing.
- async/await: events are handled one at a time, so each handler is one atomic method; there is no concurrency to model.
