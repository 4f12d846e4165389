/**
 * The challenge registry of main.go: the package-level maps `passedDialog`
 * (user ID to expected token) and `passedUsers` (a set of user IDs), and the
 * three events that drive them: a member joins (`challengeUser`), a button
 * is pressed (`passChallenge`), the 180-second timer armed on join fires.
 * Every Telegram call becomes an Effect value; the events return the list
 * of effects they would issue, in order.
 */
module Registry {
  import opened Wrappers
  import opened Text
  import opened Challenge

  /** The configuration file's values, read once at start-up. */
  datatype Config = Config(
    welcomeMessage: string,
    afterSuccessMessage: string,
    afterFailMessage: string,
    afterFailAnswerMessage: string,
    printSuccessAndFail: string)

  datatype User = User(id: int, firstName: string, lastName: string)

  datatype Message = Message(id: int, chat: int, sender: User)

  /** An `OnUserJoined` update: the service message and the member it announces. */
  datatype JoinEvent = JoinEvent(message: Message, joined: User)

  /** An `OnCallback` update: who pressed, the button's data, the challenge message and the message it replies to. */
  datatype Callback = Callback(id: string, sender: User, data: string, message: Message, replyTo: Message)

  /** The platform actions the handlers issue. */
  datatype Effect =
    | Restrict(chat: int, user: int)              // mute until forever
    | Reply(to: Message, text: string, keyboard: seq<seq<Button>>)
    | Ban(chat: int, user: int)
    | Promote(chat: int, user: int)               // grant send rights
    | Edit(message: Message, text: string)
    | Delete(message: Message)
    | Respond(callback: string, text: string)
    | After(seconds: nat, actions: seq<Effect>)   // a `time.AfterFunc` cleanup

  const ChallengeSeconds: nat := 180
  const CleanupSeconds: nat := 30
  const NotForYouText: string := "This button isn't for you"
  const PassedText: string := "Validation passed!"

  /** The timeout closure armed by a join: what it captured. */
  datatype Timeout = Timeout(seconds: nat, join: JoinEvent, prompt: Message)

  /** The two maps. */
  datatype State = State(dialog: map<int, string>, passed: set<int>)

  /** What one event does: the new maps, the effects in order, and a timer when one is armed. */
  datatype Step = Step(state: State, effects: seq<Effect>, timer: Option<Timeout>)

  /** Go's map read: a missing key yields the zero value "". */
  function Lookup(dialog: map<int, string>, user: int): string {
    if user in dialog then dialog[user] else ""
  }

  /** What every reachable state satisfies: nothing is ever inserted into `passedUsers`, and every stored token came from `randStringBytes(10)`. */
  ghost predicate Inv(s: State) {
    s.passed == {} && forall u :: u in s.dialog ==> IsToken(s.dialog[u])
  }

  function WelcomeText(cfg: Config, m: JoinEvent, d: Draws, widen: string -> string): string
    requires WellFormed(d)
  {
    FillWelcome(cfg.welcomeMessage, m.joined.firstName + " " + m.joined.lastName, Formula(d, widen))
  }

  /** True when the join event announces the member who sent it. */
  predicate SelfJoin(m: JoinEvent) { m.joined.id == m.message.sender.id }

  /**
   * `challengeUser`. `prompt` is the message the platform returns for the
   * reply carrying the keyboard.
   */
  function Join(cfg: Config, s: State, m: JoinEvent, d: Draws, widen: string -> string, prompt: Message): (r: Step)
    requires WellFormed(d)
    ensures !SelfJoin(m) ==> r == Step(s, [], None)
    ensures SelfJoin(m) ==>
      var u := m.joined.id;
      && Lookup(r.state.dialog, u) == ExpectedToken(d)
      && Lookup(r.state.dialog, u) == Keyboard(d, widen)[d.answer][0].data
      && r.state.dialog.Keys == s.dialog.Keys + {u}
      && (forall v :: v != u ==> Lookup(r.state.dialog, v) == Lookup(s.dialog, v))
      && r.state.passed == s.passed
      && r.effects == [Restrict(m.message.chat, u), Reply(m.message, WelcomeText(cfg, m, d, widen), Keyboard(d, widen))]
      && r.timer == Some(Timeout(ChallengeSeconds, m, prompt))
    ensures Inv(s) ==> Inv(r.state)
  {
    if !SelfJoin(m) then Step(s, [], None)
    else
      var u := m.joined.id;
      KeyboardLayout(d, widen);
      Step(State(s.dialog[u := ExpectedToken(d)], s.passed),
           [Restrict(m.message.chat, u), Reply(m.message, WelcomeText(cfg, m, d, widen), Keyboard(d, widen))],
           Some(Timeout(ChallengeSeconds, m, prompt)))
  }

  /** The success edit or deletion of the challenge message, as the display strategy says. */
  function SuccessDisplay(cfg: Config, c: Callback): (r: seq<Effect>)
    ensures |r| <= 1
    ensures forall e :: e in r ==> e == Edit(c.message, cfg.afterSuccessMessage) || e == Delete(c.message)
    ensures Edit(c.message, cfg.afterSuccessMessage) in r <==> cfg.printSuccessAndFail == "show"
    ensures Delete(c.message) in r <==> cfg.printSuccessAndFail == "delete"
  {
    if cfg.printSuccessAndFail == "show" then [Edit(c.message, cfg.afterSuccessMessage)]
    else if cfg.printSuccessAndFail == "delete" then [Delete(c.message)]
    else []
  }

  /** `passChallenge`. */
  function Press(cfg: Config, s: State, c: Callback): (r: Step)
    ensures r.timer == None
    ensures c.replyTo.sender.id != c.sender.id ==> r == Step(s, [Respond(c.id, NotForYouText)], None)
    ensures var u, chat := c.sender.id, c.message.chat;
      && (Promote(chat, u) in r.effects <==> c.replyTo.sender.id == u && c.data == Lookup(s.dialog, u))
      && (Ban(chat, u) in r.effects <==> c.replyTo.sender.id == u && c.data != Lookup(s.dialog, u))
      && (Respond(c.id, PassedText) in r.effects <==> Promote(chat, u) in r.effects)
    ensures c.replyTo.sender.id == c.sender.id && c.data == Lookup(s.dialog, c.sender.id) ==>
      r.effects == SuccessDisplay(cfg, c) + [Promote(c.message.chat, c.sender.id), Respond(c.id, PassedText)]
    ensures c.replyTo.sender.id == c.sender.id && c.data != Lookup(s.dialog, c.sender.id) ==>
      r.effects == [Edit(c.message, cfg.afterFailAnswerMessage), Ban(c.message.chat, c.sender.id),
                    After(CleanupSeconds, [Delete(c.message)])]
    ensures var u := c.sender.id;
      r.state == if c.replyTo.sender.id == u && c.data == Lookup(s.dialog, u)
                 then State(s.dialog - {u}, s.passed - {u}) else s
    ensures Inv(s) ==> Inv(r.state)
  {
    var u := c.sender.id;
    if c.replyTo.sender.id != u then
      Step(s, [Respond(c.id, NotForYouText)], None)
    else if c.data != Lookup(s.dialog, u) then
      Step(s, [Edit(c.message, cfg.afterFailAnswerMessage), Ban(c.message.chat, c.replyTo.sender.id),
               After(CleanupSeconds, [Delete(c.message)])], None)
    else
      Step(State(s.dialog - {u}, s.passed - {u}),
           SuccessDisplay(cfg, c) + [Promote(c.message.chat, u), Respond(c.id, PassedText)], None)
  }

  /** The ban and the message handling of a timeout, as the display strategy says. */
  function TimeoutEnforcement(cfg: Config, t: Timeout): (r: seq<Effect>)
    ensures |r| >= 1 && r[0] == Ban(t.join.message.chat, t.join.joined.id)
    ensures cfg.printSuccessAndFail == "show" ==>
      r[1..] == [Edit(t.prompt, cfg.afterFailMessage), After(CleanupSeconds, [Delete(t.join.message), Delete(t.prompt)])]
    ensures cfg.printSuccessAndFail == "delete" ==> r[1..] == [Delete(t.join.message), Delete(t.prompt)]
    ensures cfg.printSuccessAndFail != "show" && cfg.printSuccessAndFail != "delete" ==> r == [r[0]]
    ensures Edit(t.prompt, cfg.afterFailMessage) in r <==> cfg.printSuccessAndFail == "show"
    ensures Delete(t.prompt) in r <==> cfg.printSuccessAndFail == "delete"
  {
    [Ban(t.join.message.chat, t.join.joined.id)] +
    if cfg.printSuccessAndFail == "show" then
      [Edit(t.prompt, cfg.afterFailMessage), After(CleanupSeconds, [Delete(t.join.message), Delete(t.prompt)])]
    else if cfg.printSuccessAndFail == "delete" then
      [Delete(t.join.message), Delete(t.prompt)]
    else []
  }

  /** The timeout closure of `challengeUser`, run whenever the caller lets the timer fire. */
  function Expire(cfg: Config, s: State, t: Timeout): (r: Step)
    ensures var u := t.join.joined.id;
      && u !in r.state.dialog && u !in r.state.passed
      && r.state.dialog.Keys == s.dialog.Keys - {u}
      && (forall v :: v != u ==> Lookup(r.state.dialog, v) == Lookup(s.dialog, v))
      && r.state.passed == s.passed - {u}
      && (Ban(t.join.message.chat, u) in r.effects <==> u !in s.passed)
      && (u in s.passed ==> r.effects == [])
      && (u !in s.passed ==> r.effects == TimeoutEnforcement(cfg, t))
      && r.timer == None
    ensures Inv(s) ==> Inv(r.state)
  {
    var u := t.join.joined.id;
    var effects := if u in s.passed then [] else TimeoutEnforcement(cfg, t);
    Step(State(s.dialog - {u}, s.passed - {u}), effects, None)
  }

  // ---------------------------------------------------------------------------
  // Properties of runs

  /** Because `passedUsers` is never inserted into, every timeout takes the ban branch. */
  lemma TimeoutAlwaysBans(cfg: Config, s: State, t: Timeout)
    requires Inv(s)
    ensures Ban(t.join.message.chat, t.join.joined.id) in Expire(cfg, s, t).effects
    ensures Expire(cfg, s, t).effects == TimeoutEnforcement(cfg, t)
  {
  }

  /**
   * The press the joining member makes on the answer button of their own
   * challenge: its data is the expected token (the answer row's data, by
   * KeyboardLayout and Join).
   */
  predicate AnswerPress(m: JoinEvent, d: Draws, c: Callback)
    requires WellFormed(d)
  {
    c.sender.id == m.joined.id && c.replyTo == m.message && c.data == ExpectedToken(d)
  }

  /** After a join, pressing the answer button promotes the member and clears both maps for them. */
  lemma AnswerPassesAfterJoin(cfg: Config, s: State, m: JoinEvent, d: Draws, widen: string -> string,
                              prompt: Message, c: Callback)
    requires WellFormed(d) && SelfJoin(m) && AnswerPress(m, d, c)
    ensures var p := Press(cfg, Join(cfg, s, m, d, widen, prompt).state, c);
      && Promote(c.message.chat, c.sender.id) in p.effects
      && Ban(c.message.chat, c.sender.id) !in p.effects
      && c.sender.id !in p.state.dialog && c.sender.id !in p.state.passed
  {
  }

  /**
   * After a join, pressing a decoy whose token differs from the expected one
   * bans the member and keeps the entry: a later press of the answer button
   * still promotes.
   */
  lemma DecoyBansButKeepsEntry(cfg: Config, s: State, m: JoinEvent, d: Draws, widen: string -> string,
                               prompt: Message, i: nat, c: Callback, c': Callback)
    requires WellFormed(d) && SelfJoin(m) && i < ButtonCount && i != d.answer
    requires RandomLetters(d.slots[i].token) != ExpectedToken(d)
    requires c.sender.id == m.joined.id && c.replyTo == m.message && c.data == Keyboard(d, widen)[i][0].data
    requires AnswerPress(m, d, c')
    ensures var j := Join(cfg, s, m, d, widen, prompt).state;
      var p := Press(cfg, j, c);
      && Ban(c.message.chat, c.sender.id) in p.effects
      && Promote(c.message.chat, c.sender.id) !in p.effects
      && p.state == j
      && Promote(c'.message.chat, c'.sender.id) in Press(cfg, p.state, c').effects
  {
    KeyboardLayout(d, widen);
  }

  /**
   * A decoy row whose token draws are those of the expected token carries
   * the expected token, so pressing it passes. Re-seeding the random source
   * with the same second inside `replaceFormula` makes every decoy after the
   * first row draw exactly those values.
   */
  lemma ReseededDecoyPasses(cfg: Config, s: State, m: JoinEvent, d: Draws, widen: string -> string,
                            prompt: Message, i: nat, c: Callback)
    requires WellFormed(d) && SelfJoin(m) && i < ButtonCount && i != d.answer
    requires d.slots[i].token == d.token
    requires c.sender.id == m.joined.id && c.replyTo == m.message && c.data == SlotData(d, i)
    ensures c.data == Keyboard(d, widen)[i][0].data
    ensures var p := Press(cfg, Join(cfg, s, m, d, widen, prompt).state, c);
      Promote(c.message.chat, c.sender.id) in p.effects && Ban(c.message.chat, c.sender.id) !in p.effects
  {
    KeyboardLayout(d, widen);
  }

  /** The timer armed by a join still bans the member after they passed. */
  lemma PassedMemberBannedAtTimeout(cfg: Config, s: State, m: JoinEvent, d: Draws, widen: string -> string,
                                    prompt: Message, c: Callback)
    requires Inv(s) && WellFormed(d) && SelfJoin(m) && AnswerPress(m, d, c)
    ensures var j := Join(cfg, s, m, d, widen, prompt);
      var p := Press(cfg, j.state, c);
      && Promote(c.message.chat, m.joined.id) in p.effects
      && Ban(m.message.chat, m.joined.id) in Expire(cfg, p.state, j.timer.value).effects
  {
    var j := Join(cfg, s, m, d, widen, prompt);
    AnswerPassesAfterJoin(cfg, s, m, d, widen, prompt, c);
    TimeoutAlwaysBans(cfg, Press(cfg, j.state, c).state, j.timer.value);
  }

  /** Pressing the answer button a second time, after passing, bans: the entry is gone and "" differs from any token. */
  lemma RepeatPressAfterPassBans(cfg: Config, s: State, m: JoinEvent, d: Draws, widen: string -> string,
                                 prompt: Message, c: Callback)
    requires WellFormed(d) && SelfJoin(m) && AnswerPress(m, d, c)
    ensures var p := Press(cfg, Join(cfg, s, m, d, widen, prompt).state, c);
      Ban(c.message.chat, c.sender.id) in Press(cfg, p.state, c).effects
  {
    var p := Press(cfg, Join(cfg, s, m, d, widen, prompt).state, c);
    assert Lookup(p.state.dialog, c.sender.id) == "";
    assert |c.data| == TokenLength;
  }

  /**
   * A rejoin overwrites the entry, and the first join's timer then deletes
   * the new one: the rejoined member's correct answer is refused with a ban.
   */
  lemma StaleTimerVoidsRejoin(cfg: Config, s: State, m1: JoinEvent, d1: Draws, p1: Message,
                              m2: JoinEvent, d2: Draws, p2: Message, widen: string -> string, c: Callback)
    requires WellFormed(d1) && WellFormed(d2) && SelfJoin(m1) && SelfJoin(m2) && m1.joined.id == m2.joined.id
    requires AnswerPress(m2, d2, c)
    ensures var j1 := Join(cfg, s, m1, d1, widen, p1);
      var j2 := Join(cfg, j1.state, m2, d2, widen, p2);
      var e := Expire(cfg, j2.state, j1.timer.value);
      && Lookup(j2.state.dialog, m2.joined.id) == ExpectedToken(d2)
      && m2.joined.id !in e.state.dialog
      && Ban(c.message.chat, c.sender.id) in Press(cfg, e.state, c).effects
  {
    var j1 := Join(cfg, s, m1, d1, widen, p1);
    var j2 := Join(cfg, j1.state, m2, d2, widen, p2);
    var e := Expire(cfg, j2.state, j1.timer.value);
    assert Lookup(e.state.dialog, c.sender.id) == "";
    assert |c.data| == TokenLength;
  }

  // ---------------------------------------------------------------------------
  // The handlers over the package-level maps

  class CaptchaBot {
    const config: Config
    var passedUsers: set<int>
    var passedDialog: map<int, string>

    function Snapshot(): State
      reads this
    {
      State(passedDialog, passedUsers)
    }

    ghost predicate Valid()
      reads this
    {
      Inv(Snapshot())
    }

    /** Both maps start empty. */
    constructor(config: Config)
      ensures this.config == config && Snapshot() == State(map[], {}) && Valid()
    {
      this.config := config;
      passedUsers := {};
      passedDialog := map[];
    }

    /** `challengeUser`, main.go:89-134. */
    method ChallengeUser(m: JoinEvent, d: Draws, widen: string -> string, prompt: Message)
      returns (effects: seq<Effect>, timer: Option<Timeout>)
      requires Valid() && WellFormed(d)
      modifies this
      ensures Valid()
      ensures Step(Snapshot(), effects, timer) == Join(config, old(Snapshot()), m, d, widen, prompt)
    {
      if m.joined.id != m.message.sender.id {
        return [], None;
      }
      var u := m.joined.id;
      effects := [Restrict(m.message.chat, u)];
      var hash, keys := GenerateChallenge(d, widen);
      passedDialog := passedDialog[u := hash];
      var welcome := FillWelcome(config.welcomeMessage, m.joined.firstName + " " + m.joined.lastName, Formula(d, widen));
      effects := effects + [Reply(m.message, welcome, keys)];
      timer := Some(Timeout(ChallengeSeconds, m, prompt));
    }

    /** `passChallenge`, main.go:162-192. */
    method PassChallenge(c: Callback) returns (effects: seq<Effect>)
      requires Valid()
      modifies this
      ensures Valid()
      ensures Step(Snapshot(), effects, None) == Press(config, old(Snapshot()), c)
    {
      var u := c.sender.id;
      if c.replyTo.sender.id != u {
        return [Respond(c.id, NotForYouText)];
      }
      var expected := if u in passedDialog then passedDialog[u] else "";
      if c.data != expected {
        effects := [Edit(c.message, config.afterFailAnswerMessage), Ban(c.message.chat, c.replyTo.sender.id),
                    After(CleanupSeconds, [Delete(c.message)])];
        return;
      }
      passedUsers := passedUsers - {u};
      passedDialog := passedDialog - {u};
      effects := [];
      if config.printSuccessAndFail == "show" {
        effects := [Edit(c.message, config.afterSuccessMessage)];
      } else if config.printSuccessAndFail == "delete" {
        effects := [Delete(c.message)];
      }
      effects := effects + [Promote(c.message.chat, u), Respond(c.id, PassedText)];
    }

    /** The timeout closure, main.go:135-158; the caller decides when it runs. */
    method ExpireChallenge(t: Timeout) returns (effects: seq<Effect>)
      requires Valid()
      modifies this
      ensures Valid()
      ensures Step(Snapshot(), effects, None) == Expire(config, old(Snapshot()), t)
    {
      var u := t.join.joined.id;
      var passed := u in passedUsers;
      effects := [];
      if !passed {
        effects := [Ban(t.join.message.chat, u)];
        if config.printSuccessAndFail == "show" {
          effects := effects + [Edit(t.prompt, config.afterFailMessage),
                                After(CleanupSeconds, [Delete(t.join.message), Delete(t.prompt)])];
        } else if config.printSuccessAndFail == "delete" {
          effects := effects + [Delete(t.join.message), Delete(t.prompt)];
        }
      }
      passedUsers := passedUsers - {u};
      passedDialog := passedDialog - {u};
    }
  }
}
