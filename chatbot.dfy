/** The chat assistant's session: the cart with its merge-on-add, the badge
    total, the chat log, the keyword-based reply, the quick actions that switch
    screens and the language toggle. */
module Chatbot {
  import opened Common
  import OrderStatus

  datatype Sender = User | Bot

  /** A chat message; the clock-based id and the timestamp are not modelled. */
  datatype Message = Message(text: string, sender: Sender)

  datatype Screen = ChatScreen | MenuScreen | GameScreen | StatusScreen | FeedbackScreen

  // ---------------------------------------------------------------------------
  // Cart

  /** Some entry of the cart has product id `id` (the `find`). */
  predicate HasId(cart: seq<OrderItem>, id: string) {
    exists k :: 0 <= k < |cart| && cart[k].id == id
  }

  /** No two entries share a product id. */
  predicate UniqueIds(cart: seq<OrderItem>) {
    forall i, j :: 0 <= i < j < |cart| ==> cart[i].id != cart[j].id
  }

  /** The `map` callback: an entry with the added id gets the two quantities
      summed, every other field (the notes too) kept from the entry. */
  function Bump(entry: OrderItem, item: OrderItem): OrderItem {
    if entry.id == item.id then entry.(quantity := entry.quantity + item.quantity) else entry
  }

  /** `addToCart`'s update of the cart. */
  function Merge(cart: seq<OrderItem>, item: OrderItem): seq<OrderItem> {
    if HasId(cart, item.id) then seq(|cart|, k requires 0 <= k < |cart| => Bump(cart[k], item))
    else cart + [item]
  }

  /** The badge number: the sum of the quantities (the `reduce`). */
  function Total(cart: seq<OrderItem>): int {
    if cart == [] then 0 else cart[0].quantity + Total(cart[1..])
  }

  /** The badge is drawn only for a non-empty cart, showing the total. */
  function Badge(cart: seq<OrderItem>): Option<int> {
    if |cart| > 0 then Some(Total(cart)) else None
  }

  lemma {:induction false} TotalAppend(a: seq<OrderItem>, b: seq<OrderItem>)
    ensures Total(a + b) == Total(a) + Total(b)
    decreases |a|
  {
    if a != [] {
      assert (a + b)[1..] == a[1..] + b;
      TotalAppend(a[1..], b);
    } else {
      assert a + b == b;
    }
  }

  lemma {:induction false} TotalUpdate(cart: seq<OrderItem>, k: nat, x: OrderItem)
    requires k < |cart|
    ensures Total(cart[k := x]) == Total(cart) - cart[k].quantity + x.quantity
    decreases |cart|
  {
    if k > 0 {
      assert cart[k := x][1..] == cart[1..][k - 1 := x];
      TotalUpdate(cart[1..], k - 1, x);
    } else {
      assert cart[k := x][1..] == cart[1..];
    }
  }

  /** Adding an id already in a cart of unique ids replaces that entry, in
      place, by one whose quantity is the old one plus the new one and whose
      other fields (name, price, notes, category, dietary flag) are the old
      entry's. */
  lemma MergeExisting(cart: seq<OrderItem>, item: OrderItem, k: nat)
    requires UniqueIds(cart) && k < |cart| && cart[k].id == item.id
    ensures Merge(cart, item) == cart[k := cart[k].(quantity := cart[k].quantity + item.quantity)]
  {
    assert HasId(cart, item.id);
  }

  /** Adding an id not in the cart appends the item, leaving the earlier
      entries and their order as they were. */
  lemma MergeNew(cart: seq<OrderItem>, item: OrderItem)
    requires !HasId(cart, item.id)
    ensures |Merge(cart, item)| == |cart| + 1
    ensures Merge(cart, item)[..|cart|] == cart
    ensures Merge(cart, item)[|cart|] == item
  {
  }

  /** A merge never touches an entry with another id, and never reorders. */
  lemma MergeKeepsOthers(cart: seq<OrderItem>, item: OrderItem)
    ensures |cart| <= |Merge(cart, item)| <= |cart| + 1
    ensures forall j :: 0 <= j < |cart| && cart[j].id != item.id ==> Merge(cart, item)[j] == cart[j]
    ensures forall j :: 0 <= j < |cart| ==> Merge(cart, item)[j].id == cart[j].id
  {
  }

  /** After a merge the cart holds exactly the ids it held plus the added one,
      still each at most once. */
  lemma MergeKeepsIdsUnique(cart: seq<OrderItem>, item: OrderItem)
    requires UniqueIds(cart)
    ensures UniqueIds(Merge(cart, item))
    ensures forall id :: HasId(Merge(cart, item), id) <==> HasId(cart, id) || id == item.id
  {
    var r := Merge(cart, item);
    if HasId(cart, item.id) {
      assert forall j :: 0 <= j < |cart| ==> r[j].id == cart[j].id;
    } else {
      assert r == cart + [item];
      forall id ensures HasId(r, id) <==> HasId(cart, id) || id == item.id {
        if HasId(r, id) {
          var k :| 0 <= k < |r| && r[k].id == id;
          if k < |cart| { assert cart[k].id == id; }
        }
        if HasId(cart, id) {
          var k :| 0 <= k < |cart| && cart[k].id == id;
          assert r[k].id == id;
        }
        if id == item.id {
          assert r[|cart|].id == id;
        }
      }
    }
  }

  /** On a cart of unique ids, adding an item raises the total by exactly
      its quantity. */
  lemma MergeRaisesTotal(cart: seq<OrderItem>, item: OrderItem)
    requires UniqueIds(cart)
    ensures Total(Merge(cart, item)) == Total(cart) + item.quantity
  {
    if HasId(cart, item.id) {
      var k :| 0 <= k < |cart| && cart[k].id == item.id;
      MergeExisting(cart, item, k);
      TotalUpdate(cart, k, cart[k].(quantity := cart[k].quantity + item.quantity));
    } else {
      TotalAppend(cart, [item]);
      assert Total([item]) == item.quantity;
    }
  }

  /** Every entry has a positive quantity. */
  predicate Positive(cart: seq<OrderItem>) {
    forall k :: 0 <= k < |cart| ==> cart[k].quantity > 0
  }

  /** Adding a positive quantity keeps every quantity positive. */
  lemma MergeKeepsPositive(cart: seq<OrderItem>, item: OrderItem)
    requires Positive(cart) && item.quantity > 0
    ensures Positive(Merge(cart, item))
  {
    if !HasId(cart, item.id) {
      MergeNew(cart, item);
      assert forall k :: 0 <= k < |cart| ==> Merge(cart, item)[k] == cart[k];
    }
  }

  /** When every quantity is positive, the badge is drawn exactly when the
      total is positive. */
  lemma {:induction false} BadgeShownIffTotalPositive(cart: seq<OrderItem>)
    requires Positive(cart)
    ensures Badge(cart).Some? <==> Total(cart) > 0
    ensures Total(cart) >= 0
    decreases |cart|
  {
    if cart != [] {
      BadgeShownIffTotalPositive(cart[1..]);
    }
  }

  /** Adding the same product twice, 2 then 3, gives one line of 5; adding
      two different products keeps both, in the order they were first added. */
  lemma MergeScenarios(a: OrderItem, b: OrderItem)
    requires a.id != b.id
    ensures Merge(Merge([], a.(quantity := 2)), a.(quantity := 3)) == [a.(quantity := 5)]
    ensures Merge(Merge([], a), b) == [a, b]
  {
    var once := Merge([], a.(quantity := 2));
    assert once == [a.(quantity := 2)];
    assert once[0].id == a.id;
    var ab := Merge([a], b);
    assert !HasId([a], b.id);
  }

  // ---------------------------------------------------------------------------
  // The blank-input test (`inputValue.trim()`)

  /** The characters JavaScript's `trim` removes: white space and line
      terminators of ECMAScript. */
  predicate IsSpace(c: char) {
    || c == '\t' || c == '\n' || c == '\U{000B}' || c == '\U{000C}' || c == '\r' || c == ' '
    || c == '\U{00A0}' || c == '\U{1680}' || ('\U{2000}' <= c <= '\U{200A}')
    || c == '\U{2028}' || c == '\U{2029}' || c == '\U{202F}' || c == '\U{205F}'
    || c == '\U{3000}' || c == '\U{FEFF}'
  }

  predicate IsBlank(s: string) {
    forall i :: 0 <= i < |s| ==> IsSpace(s[i])
  }

  function TrimStart(s: string): string {
    if s != [] && IsSpace(s[0]) then TrimStart(s[1..]) else s
  }

  function TrimEnd(s: string): string {
    if s != [] && IsSpace(s[|s| - 1]) then TrimEnd(s[..|s| - 1]) else s
  }

  function Trim(s: string): string {
    TrimEnd(TrimStart(s))
  }

  lemma {:induction false} TrimStartEmptyIffBlank(s: string)
    ensures TrimStart(s) == [] <==> IsBlank(s)
    ensures TrimStart(s) != [] ==> !IsSpace(TrimStart(s)[0])
    decreases |s|
  {
    if s != [] && IsSpace(s[0]) {
      TrimStartEmptyIffBlank(s[1..]);
      assert forall i :: 1 <= i < |s| ==> s[i] == s[1..][i - 1];
    }
  }

  lemma {:induction false} TrimEndEmptyIffBlank(s: string)
    ensures TrimEnd(s) == [] <==> IsBlank(s)
    decreases |s|
  {
    if s != [] && IsSpace(s[|s| - 1]) {
      TrimEndEmptyIffBlank(s[..|s| - 1]);
      assert forall i :: 0 <= i < |s| - 1 ==> s[i] == s[..|s| - 1][i];
    }
  }

  /** Trimming leaves nothing exactly when every character is white space. */
  lemma TrimEmptyIffBlank(s: string)
    ensures Trim(s) == [] <==> IsBlank(s)
  {
    TrimStartEmptyIffBlank(s);
    var t := TrimStart(s);
    TrimEndEmptyIffBlank(t);
    if t != [] {
      assert !IsBlank(t) by { assert !IsSpace(t[0]); }
    }
  }

  // ---------------------------------------------------------------------------
  // The keyword reply

  /** `toLowerCase`, for the ASCII letters only. */
  function LowerChar(c: char): char {
    if 'A' <= c <= 'Z' then (c as int + 32) as char else c
  }

  function ToLower(s: string): (r: string)
    ensures |r| == |s|
  {
    seq(|s|, i requires 0 <= i < |s| => LowerChar(s[i]))
  }

  /** `sub` occurs in `s` at position `i`. */
  predicate OccursAt(s: string, sub: string, i: int) {
    0 <= i <= |s| - |sub| && s[i..i + |sub|] == sub
  }

  /** `includes`: tries each starting position in turn. */
  function Includes(s: string, sub: string): bool
    decreases |s|
  {
    if sub <= s then true else if s == [] then false else Includes(s[1..], sub)
  }

  /** `Includes` answers yes exactly when `sub` occurs somewhere in `s`. */
  lemma {:induction false} IncludesCorrect(s: string, sub: string)
    ensures Includes(s, sub) <==> exists i :: OccursAt(s, sub, i)
    decreases |s|
  {
    if sub <= s {
      assert OccursAt(s, sub, 0);
    } else if s != [] {
      IncludesCorrect(s[1..], sub);
      if exists i :: OccursAt(s, sub, i) {
        var i :| OccursAt(s, sub, i);
        assert i != 0;
        assert OccursAt(s[1..], sub, i - 1) by {
          assert s[1..][i - 1..i - 1 + |sub|] == s[i..i + |sub|];
        }
      }
      if Includes(s[1..], sub) {
        var i :| OccursAt(s[1..], sub, i);
        assert OccursAt(s, sub, i + 1) by {
          assert s[i + 1..i + 1 + |sub|] == s[1..][i..i + |sub|];
        }
      }
    }
  }

  /** The four canned bot answers. */
  datatype ReplyKind = OrderReply | MenuReply | GameReply | DefaultReply

  function ReplyText(kind: ReplyKind): string {
    match kind
    case OrderReply => "Great! I can help you order food. You can browse our menu or tell me what you're craving today!"
    case MenuReply => "Perfect! Let me show you our delicious menu with fresh options."
    case GameReply => "Fun! I have Tic Tac Toe ready for you. Want to play while you wait?"
    case DefaultReply => "I understand! Let me help you with that."
  }

  /** The bot's answer to a user message: the first keyword found, in the
      order "order" or "food", then "menu", then "game", decides. */
  function Reply(input: string): ReplyKind {
    var lower := ToLower(input);
    if Includes(lower, "order") || Includes(lower, "food") then OrderReply
    else if Includes(lower, "menu") then MenuReply
    else if Includes(lower, "game") then GameReply
    else DefaultReply
  }

  lemma ToLowerIdempotent(s: string)
    ensures ToLower(ToLower(s)) == ToLower(s)
  {
  }

  /** The reply does not depend on letter case. */
  lemma ReplyIgnoresCase(s: string)
    ensures Reply(ToLower(s)) == Reply(s)
  {
    ToLowerIdempotent(s);
  }

  /** Each keyword wins over every later one, stated on occurrences: a message
      naming "order" or "food" anywhere gets the ordering reply even when it
      also names the menu or a game; the menu reply needs "menu" and neither
      earlier keyword; the game reply needs "game" and none of the others. */
  lemma ReplyPriority(input: string)
    ensures var lower := ToLower(input);
      && (Reply(input) == OrderReply <==>
            (exists i :: OccursAt(lower, "order", i)) || (exists i :: OccursAt(lower, "food", i)))
      && (Reply(input) == MenuReply <==>
            (forall i :: !OccursAt(lower, "order", i)) && (forall i :: !OccursAt(lower, "food", i))
            && (exists i :: OccursAt(lower, "menu", i)))
      && (Reply(input) == GameReply <==>
            (forall i :: !OccursAt(lower, "order", i)) && (forall i :: !OccursAt(lower, "food", i))
            && (forall i :: !OccursAt(lower, "menu", i)) && (exists i :: OccursAt(lower, "game", i)))
  {
    var lower := ToLower(input);
    IncludesCorrect(lower, "order");
    IncludesCorrect(lower, "food");
    IncludesCorrect(lower, "menu");
    IncludesCorrect(lower, "game");
  }

  /** Short messages: "MENU" in capitals reaches the menu reply, "food menu"
      gets the ordering reply, and "hi" the default one. */
  lemma ReplyExamples()
    ensures Reply("MENU") == MenuReply
    ensures Reply("food menu") == OrderReply
    ensures Reply("hi") == DefaultReply
  {
    assert ToLower("MENU") == "menu";
    IncludesCorrect("menu", "order");
    IncludesCorrect("menu", "food");
    assert "menu"[0..4] == "menu" && "menu"[0] != "food"[0];
    IncludesCorrect("menu", "menu");
    assert OccursAt("menu", "menu", 0);
    assert "food" <= ToLower("food menu");
    assert ToLower("hi") == "hi";
    IncludesCorrect("hi", "order");
    IncludesCorrect("hi", "food");
    IncludesCorrect("hi", "menu");
    IncludesCorrect("hi", "game");
  }

  // ---------------------------------------------------------------------------
  // Quick actions and the language toggle

  /** The screen each quick action opens; an unknown action does nothing. */
  function ScreenFor(action: string): Option<Screen> {
    if action == "order" then Some(MenuScreen)
    else if action == "menu" then Some(MenuScreen)
    else if action == "games" then Some(GameScreen)
    else if action == "status" then Some(StatusScreen)
    else if action == "feedback" then Some(FeedbackScreen)
    else None
  }

  /** The translated button captions the quick actions echo as user messages. */
  function OrderFoodText(lang: Language): string {
    if lang == En then "Order Food" else "खाना ऑर्डर करें"
  }

  function PlayGamesText(lang: Language): string {
    if lang == En then "Play Games" else "गेम खेलें"
  }

  /** The bot's answers to the "order" and "games" quick actions. */
  const OrderActionReply: string := "Excellent choice! Here's our delicious menu. What catches your eye?"
  const GamesActionReply: string := "Let's have some fun! How about a quick game of Tic Tac Toe?"

  /** The messages a quick action adds: the caption and a bot answer for
      "order" and "games", nothing for the others. */
  function QuickActionMessages(action: string, lang: Language): seq<Message> {
    if action == "order" then
      [Message(OrderFoodText(lang), User),
       Message(OrderActionReply, Bot)]
    else if action == "games" then
      [Message(PlayGamesText(lang), User),
       Message(GamesActionReply, Bot)]
    else []
  }

  /** Each known action opens its fixed screen; only "order" and "games"
      talk, each with one user message followed by one bot message. */
  lemma QuickActionsAreFixed(action: string, lang: Language)
    ensures ScreenFor(action).Some? <==> action in {"order", "menu", "games", "status", "feedback"}
    ensures ScreenFor(action) == Some(MenuScreen) <==> action == "order" || action == "menu"
    ensures |QuickActionMessages(action, lang)| == (if action == "order" || action == "games" then 2 else 0)
    ensures |QuickActionMessages(action, lang)| == 2 ==>
      QuickActionMessages(action, lang)[0].sender == User && QuickActionMessages(action, lang)[1].sender == Bot
  {
  }

  function Toggle(lang: Language): Language {
    if lang == En then Hi else En
  }

  /** The language button switches between the two languages and undoes itself. */
  lemma ToggleIsInvolution(lang: Language)
    ensures Toggle(lang) != lang
    ensures Toggle(Toggle(lang)) == lang
  {
  }

  /** The welcome message the chat is reset to whenever the language is set,
      on first display and after each toggle. */
  const WelcomeEn: string := "🍴 Welcome to our restaurant! I'm your digital dining assistant. How can I help you today?"
  const WelcomeHi: string := "🍴 हमारे रेस्टोरेंट में आपका स्वागत है! मैं आपका डिजिटल डाइनिंग असिस्टेंट हूं। आज मैं आपकी कैसे मदद कर सकता हूं?"

  function WelcomeText(lang: Language): string {
    if lang == En then WelcomeEn else WelcomeHi
  }

  function AddedText(item: OrderItem): string {
    "Added " + item.name + " to cart!"
  }

  // ---------------------------------------------------------------------------
  // The stateful session

  class Session {
    var messages: seq<Message>
    var inputValue: string
    var currentScreen: Screen
    var language: Language
    var cart: seq<OrderItem>
    var orderStatus: OrderStatus.Status

    /** The cart keeps one entry per product, each with a positive quantity,
        and nothing in the session ever moves the order status away from
        "none". */
    ghost predicate Valid()
      reads this
    {
      UniqueIds(cart) && Positive(cart) && orderStatus == OrderStatus.NoOrder
    }

    constructor ()
      ensures Valid()
      ensures messages == [Message(WelcomeText(En), Bot)]
      ensures inputValue == "" && currentScreen == ChatScreen
      ensures language == En && cart == []
    {
      messages := [Message(WelcomeText(En), Bot)];
      inputValue := "";
      currentScreen := ChatScreen;
      language := En;
      cart := [];
      orderStatus := OrderStatus.NoOrder;
    }

    /** `addMessage`: one message appended at the end, nothing else changed. */
    method AddMessage(text: string, sender: Sender)
      requires Valid()
      modifies this
      ensures Valid()
      ensures messages == old(messages) + [Message(text, sender)]
      ensures inputValue == old(inputValue) && currentScreen == old(currentScreen)
      ensures language == old(language) && cart == old(cart) && orderStatus == old(orderStatus)
    {
      messages := messages + [Message(text, sender)];
    }

    /** Typing into the chat input. */
    method SetInput(text: string)
      requires Valid()
      modifies this
      ensures Valid()
      ensures inputValue == text
      ensures messages == old(messages) && currentScreen == old(currentScreen)
      ensures language == old(language) && cart == old(cart) && orderStatus == old(orderStatus)
    {
      inputValue := text;
    }

    /** `handleSendMessage`: blank input is ignored; otherwise the input is
        added as a user message, the input box is cleared, and the reply that
        the timer will deliver is returned. */
    method SendMessage() returns (pendingReply: Option<string>)
      requires Valid()
      modifies this
      ensures Valid()
      ensures Trim(old(inputValue)) == [] ==>
        pendingReply == None && messages == old(messages) && inputValue == old(inputValue)
      ensures Trim(old(inputValue)) != [] ==>
        && pendingReply == Some(ReplyText(Reply(old(inputValue))))
        && messages == old(messages) + [Message(old(inputValue), User)]
        && inputValue == ""
      ensures currentScreen == old(currentScreen) && language == old(language)
      ensures cart == old(cart) && orderStatus == old(orderStatus)
    {
      if Trim(inputValue) == [] {
        return None;
      }
      var text := inputValue;
      AddMessage(text, User);
      pendingReply := Some(ReplyText(Reply(text)));
      inputValue := "";
    }

    /** The delayed bot reply, when the timer fires. */
    method DeliverReply(reply: string)
      requires Valid()
      modifies this
      ensures Valid()
      ensures messages == old(messages) + [Message(reply, Bot)]
      ensures inputValue == old(inputValue) && currentScreen == old(currentScreen)
      ensures language == old(language) && cart == old(cart) && orderStatus == old(orderStatus)
    {
      AddMessage(reply, Bot);
    }

    /** `handleQuickAction`. */
    method HandleQuickAction(action: string)
      requires Valid()
      modifies this
      ensures Valid()
      ensures currentScreen == ScreenFor(action).GetOr(old(currentScreen))
      ensures messages == old(messages) + QuickActionMessages(action, old(language))
      ensures inputValue == old(inputValue) && language == old(language)
      ensures cart == old(cart) && orderStatus == old(orderStatus)
    {
      if action == "order" {
        currentScreen := MenuScreen;
        AddMessage(OrderFoodText(language), User);
        AddMessage(OrderActionReply, Bot);
      } else if action == "menu" {
        currentScreen := MenuScreen;
      } else if action == "games" {
        currentScreen := GameScreen;
        AddMessage(PlayGamesText(language), User);
        AddMessage(GamesActionReply, Bot);
      } else if action == "status" {
        currentScreen := StatusScreen;
      } else if action == "feedback" {
        currentScreen := FeedbackScreen;
      }
    }

    /** `addToCart`: the cart is merged with the item, it keeps one entry
        per product, the badge total grows by the item's quantity, and a
        confirmation message is added. */
    method AddToCart(item: OrderItem)
      requires Valid() && item.quantity > 0
      modifies this
      ensures Valid()
      ensures cart == Merge(old(cart), item)
      ensures Total(cart) == Total(old(cart)) + item.quantity
      ensures Badge(cart) == Some(Total(old(cart)) + item.quantity)
      ensures Total(cart) > 0
      ensures messages == old(messages) + [Message(AddedText(item), Bot)]
      ensures inputValue == old(inputValue) && currentScreen == old(currentScreen)
      ensures language == old(language) && orderStatus == old(orderStatus)
    {
      MergeRaisesTotal(cart, item);
      MergeKeepsIdsUnique(cart, item);
      MergeKeepsPositive(cart, item);
      BadgeShownIffTotalPositive(cart);
      cart := Merge(cart, item);
      assert HasId(cart, item.id);
      AddMessage(AddedText(item), Bot);
    }

    /** The language button in the header; the chat then restarts from the
        welcome message in the new language. */
    method ToggleLanguage()
      requires Valid()
      modifies this
      ensures Valid()
      ensures language == Toggle(old(language))
      ensures messages == [Message(WelcomeText(language), Bot)]
      ensures inputValue == old(inputValue)
      ensures currentScreen == old(currentScreen) && cart == old(cart) && orderStatus == old(orderStatus)
    {
      language := Toggle(language);
      messages := [Message(WelcomeText(language), Bot)];
    }

    /** The back-to-chat button in the header. */
    method BackToChat()
      requires Valid()
      modifies this
      ensures Valid()
      ensures currentScreen == ChatScreen
      ensures messages == old(messages) && inputValue == old(inputValue)
      ensures language == old(language) && cart == old(cart) && orderStatus == old(orderStatus)
    {
      currentScreen := ChatScreen;
    }
  }

  /** A blank message is ignored: no reply, and only the welcome message is
      shown. */
  method BlankMessageScenario() returns (reply: Option<string>, shown: nat)
    ensures reply == None && shown == 1
  {
    TrimEmptyIffBlank("  ");
    var session := new Session();
    session.SetInput("  ");
    reply := session.SendMessage();
    shown := |session.messages|;
  }

  /** The "order" quick action opens the menu and adds its two messages. */
  method OrderActionScenario() returns (screen: Screen, added: nat)
    ensures screen == MenuScreen && added == 2
  {
    var session := new Session();
    var before := |session.messages|;
    session.HandleQuickAction("order");
    screen := session.currentScreen;
    added := |session.messages| - before;
  }

  /** Adding the same dish twice leaves one cart entry whose quantity is the
      sum, and the badge shows it. */
  method CartScenario(dish: OrderItem) returns (cart: seq<OrderItem>)
    requires dish.quantity == 1
    ensures cart == [dish.(quantity := 2)] && Badge(cart) == Some(2)
  {
    var session := new Session();
    session.AddToCart(dish);
    assert session.cart == [dish];
    session.AddToCart(dish);
    assert session.cart[0].id == dish.id;
    cart := session.cart;
  }
}
