# Restaurant assistant — a verified model

The restaurant assistant is a single-page chat app that a diner uses at the
table. It has five parts, and each is modelled here on its own:

- **Chat session** (`chatbot.dfy`, module `Chatbot`). The message list, the
  input box, the current screen, the language and the cart.
  - Sending a message echoes it and picks a canned reply by keyword.
  - The quick-action buttons open screens.
  - Adding a dish merges it into the cart by product id.
  - The header badge shows the total quantity.
- **Menu** (`menu.dfy`, module `Menu`). A fixed table of eight dishes shown
  under four category tabs.
  - Each dish has a quantity counter that is clamped at 0 and a free-text note.
  - "Add to Cart" builds the order line and resets that dish's counter and note.
- **Tic-tac-toe** (`tictactoe.dfy`, module `TicTacToe`). A nine-cell board, the
  player to move and the outcome.
  - Each click writes one cell and scans the eight lines.
  - The scan either settles a win or a tie, or passes the turn.
- **Order status** (`orderstatus.dfy`, module `OrderStatus`). A status from the
  ordered list none < confirmed < preparing < ready < served. It maps to four
  progress-step flags and decides which parts of the screen are shown.
- **Feedback** (`feedback.dfy`, module `Feedback`). A 0–5 star rating, a
  comment, and a thank-you card that is shown after submitting until a
  delayed reset.

`common.dfy` (module `Common`) holds the types these parts share: `Option`,
`Language` and `OrderItem`.

Each stateful component is a Dafny `class` whose fields are the component's
state. Each handler is a method whose `ensures` gives the whole new state.
The pure parts are functions:
- the cart merge, the keyword reply, the win scan, the move rule, the step flags;
- lemmas prove what the app promises about them.

`TicTacToe.Game` keeps its board in a nine-element `array`. Its `MakeMove` is
proved to follow the pure transition `TicTacToe.Move`, and its `Valid()`
invariant covers three things:
- the outcome always equals the win scan of the board;
- a winner is the player left as current, the one who moved last;
- the X and O counts stay balanced with the player to move.

A separate invariant, `TicTacToe.SingleOwner`, holds on every reachable board
as well: every player holding a line is the recorded winner, so the two
players never both hold a line.

Timers are explicit methods that the caller runs when the delay is over:
- the one-second chat reply becomes `DeliverReply`;
- the three-second feedback reset becomes `ResetAfterDelay`.

## Model

| member | source | states |
|---|---|---|
| TicTacToe.LineOwnerCorrect | src/components/TicTacToe.tsx:21-24 | a line test returns a player only when all three cells hold that player, and nothing when no player holds all three |
| TicTacToe.FirstOwnerCorrect | src/components/TicTacToe.tsx:19-25 | the scan answers nothing exactly when no line is held; otherwise it answers the owner of the first held line in scan order, every earlier line being unheld |
| TicTacToe.CheckWinnerCorrect | src/components/TicTacToe.tsx:13-30 | a win is reported iff some winning line has three equal marks, and the winner owns the first such line in the order of `lines`; a tie iff no line is held and all nine cells are taken; no outcome iff no line is held and a cell is free |
| TicTacToe.Move | src/components/TicTacToe.tsx:32-45 | a click keeps the board at nine cells |
| TicTacToe.IllegalMoveIsNoOp | src/components/TicTacToe.tsx:33 | clicking a taken cell, or any cell after the game is decided, changes nothing |
| TicTacToe.LegalMoveWritesOneCell | src/components/TicTacToe.tsx:35-37 | a legal click writes the mover's mark into exactly that cell and leaves the other eight unchanged |
| TicTacToe.TurnPassesOnlyWhileUndecided | src/components/TicTacToe.tsx:39-44 | the turn passes to the other player only when the move decides nothing; on a win or tie the mover stays current, and on a win the mover is the winner |
| TicTacToe.NewLineIsMovers | src/components/TicTacToe.tsx:36-41 | on a board with no line, a line that appears after a move belongs to the player who moved |
| TicTacToe.InitialInv | src/components/TicTacToe.tsx:9-11 | the starting state (empty board, X to move, no outcome) satisfies the game invariant |
| TicTacToe.MovePreservesInv | src/components/TicTacToe.tsx:32-45 | every click keeps the invariant: the outcome equals the scan of the board, a winner is the current player, X's count equals O's when X is to move and exceeds it by one when O is |
| TicTacToe.RunPreservesInv | src/components/TicTacToe.tsx:32-45 | any sequence of clicks keeps the invariant |
| TicTacToe.ReachableInv | src/components/TicTacToe.tsx:9-11 | every state reachable from the start by clicks satisfies the invariant |
| TicTacToe.MoveKeepsSingleOwner | src/components/TicTacToe.tsx:32-44 | if every player holding a line is the recorded winner, that stays so after a click |
| TicTacToe.RunKeepsSingleOwner | src/components/TicTacToe.tsx:32-44 | the same over any sequence of clicks |
| TicTacToe.ReachableSingleOwner | src/components/TicTacToe.tsx:13-44 | on every reachable board a player holds a line exactly when that player is the recorded winner, so the two players never both hold a line |
| TicTacToe.FinishedGameIsFrozen | src/components/TicTacToe.tsx:33 | once an outcome is set, no sequence of clicks changes board, player or outcome |
| TicTacToe.StatusMessageDetermines | src/components/TicTacToe.tsx:53-57 | the status line is decided by the outcome (tie text, winner text, turn text, checked in that order): equal lines mean equal outcomes, and while undecided the same player to move |
| TicTacToe.ColumnWinRun | src/components/TicTacToe.tsx:32-45 | clicks 0, 1, 3, 4, 6 from the start end with X on 0, 3, 6, O on 1, 4, X current and X the winner |
| TicTacToe.ColumnWinScenario | src/components/TicTacToe.tsx:13-16 | clicks 0, 1, 3, 4, 6 from the start give X the win through the left column, and the status line reads "Player X wins! 🎉" |
| TicTacToe.ColumnWinStatus | src/components/TicTacToe.tsx:55 | the winner text for X is "Player X wins! 🎉" |
| TicTacToe.TieScenario | src/components/TicTacToe.tsx:26-28 | clicks 0, 1, 2, 4, 3, 5, 7, 6, 8 fill the board with no line: a tie, with X (the last mover) still current |
| TicTacToe.Game.constructor | src/components/TicTacToe.tsx:9-11 | a new game is the starting state and satisfies the invariant |
| TicTacToe.Game.MakeMove | src/components/TicTacToe.tsx:32-45 | the click changes the game exactly as the pure move rule says, on the same board array, and keeps the invariant |
| TicTacToe.Game.ResetGame | src/components/TicTacToe.tsx:47-51 | from any state: a fresh empty board, X to move, no outcome |
| TicTacToe.Game.GetStatusMessage | src/components/TicTacToe.tsx:53-57 | returns the status line of the current state |
| Chatbot.TotalAppend | src/components/RestaurantChatbot.tsx:266 | the badge sum of two carts joined is the sum of their sums |
| Chatbot.TotalUpdate | src/components/RestaurantChatbot.tsx:266 | replacing one entry changes the sum by the difference of the two quantities |
| Chatbot.MergeExisting | src/components/RestaurantChatbot.tsx:148-153 | adding an id already present replaces that entry in place by one whose quantity is the sum, with all other fields, the notes included, taken from the existing entry |
| Chatbot.MergeNew | src/components/RestaurantChatbot.tsx:156 | adding a new id appends the item at the end; the earlier entries and their order stay as they were |
| Chatbot.MergeKeepsOthers | src/components/RestaurantChatbot.tsx:150-154 | entries with another id are untouched; no entry moves; the cart grows by at most one |
| Chatbot.MergeKeepsIdsUnique | src/components/RestaurantChatbot.tsx:146-157 | a cart of unique ids stays unique, and afterwards holds exactly its old ids plus the added one |
| Chatbot.MergeRaisesTotal | src/components/RestaurantChatbot.tsx:146-157 | on a cart of unique ids, adding raises the badge sum by exactly the added quantity |
| Chatbot.BadgeShownIffTotalPositive | src/components/RestaurantChatbot.tsx:264-266 | with positive quantities, the badge is drawn exactly when the sum is positive |
| Chatbot.MergeKeepsPositive | src/components/RestaurantChatbot.tsx:146-157 | adding a positive quantity to a cart of positive quantities keeps them all positive |
| Chatbot.MergeScenarios | src/components/RestaurantChatbot.tsx:146-157 | the same dish added with 2 and then 3 gives one entry of 5; two different dishes give both entries, in order |
| Chatbot.TrimEmptyIffBlank | src/components/RestaurantChatbot.tsx:102 | trimming leaves nothing exactly when every character is ECMAScript white space or a line terminator |
| Chatbot.TrimStartEmptyIffBlank | src/components/RestaurantChatbot.tsx:102 | stripping leading white space leaves nothing iff the input is blank, and otherwise starts at a non-space |
| Chatbot.TrimEndEmptyIffBlank | src/components/RestaurantChatbot.tsx:102 | stripping trailing white space leaves nothing iff the input is blank |
| Chatbot.ToLower | src/components/RestaurantChatbot.tsx:109 | lowercasing keeps the length |
| Chatbot.ToLowerIdempotent | src/components/RestaurantChatbot.tsx:109 | lowercasing twice is lowercasing once |
| Chatbot.IncludesCorrect | src/components/RestaurantChatbot.tsx:109-113 | the substring test answers yes exactly when the keyword occurs at some position |
| Chatbot.ReplyIgnoresCase | src/components/RestaurantChatbot.tsx:109-113 | the reply does not depend on letter case |
| Chatbot.ReplyPriority | src/components/RestaurantChatbot.tsx:108-115 | first match wins: the ordering reply iff "order" or "food" occurs; the menu reply iff "menu" occurs and neither of those; the game reply iff "game" occurs and none of the other three |
| Chatbot.ReplyExamples | src/components/RestaurantChatbot.tsx:108-115 | "MENU" gets the menu reply, "food menu" the ordering reply, "hi" the default |
| Chatbot.QuickActionsAreFixed | src/components/RestaurantChatbot.tsx:122-144 | each of the five actions opens its own fixed screen ("order" and "menu" both the menu), an unknown action none; only "order" and "games" add messages, a user caption then a bot answer |
| Chatbot.ToggleIsInvolution | src/components/RestaurantChatbot.tsx:272 | the language button always changes the language and undoes itself |
| Chatbot.Session.constructor | src/components/RestaurantChatbot.tsx:32-81 | the session starts on the chat screen in English with an empty input and cart, showing only the English welcome message |
| Chatbot.Session.AddMessage | src/components/RestaurantChatbot.tsx:90-99 | exactly one message is appended at the end; nothing else changes |
| Chatbot.Session.SetInput | src/components/RestaurantChatbot.tsx:239 | typing sets the input box; nothing else changes |
| Chatbot.Session.SendMessage | src/components/RestaurantChatbot.tsx:101-120 | blank input adds no message and changes nothing; otherwise the input is appended as a user message, the box is cleared, and the reply chosen from the input as typed is returned for the timer |
| Chatbot.Session.DeliverReply | src/components/RestaurantChatbot.tsx:116 | the timer's reply is appended as a bot message |
| Chatbot.Session.HandleQuickAction | src/components/RestaurantChatbot.tsx:122-144 | the screen becomes the action's screen (kept for an unknown action) and the action's messages are appended in the current language |
| Chatbot.Session.AddToCart | src/components/RestaurantChatbot.tsx:146-159 | the cart becomes the merge, still with unique ids and positive quantities; the badge total rises by the item's quantity, is positive, and is shown; one confirmation message naming the dish is appended |
| Chatbot.Session.ToggleLanguage | src/components/RestaurantChatbot.tsx:272 | the language switches, and the effect that watches the language (lines 73-81) restarts the chat from the welcome message in the new language |
| Chatbot.Session.BackToChat | src/components/RestaurantChatbot.tsx:280 | the screen returns to the chat; nothing else changes |
| Chatbot.BlankMessageScenario | src/components/RestaurantChatbot.tsx:101-102 | sending a blank message gives no reply and leaves only the welcome message shown |
| Chatbot.OrderActionScenario | src/components/RestaurantChatbot.tsx:124-128 | the "order" quick action opens the menu and adds two messages |
| Chatbot.CartScenario | src/components/RestaurantChatbot.tsx:146-157 | the same dish added twice gives one entry of quantity 2, shown as 2 on the badge |
| Menu.MenuIsWellFormed | src/components/MenuPanel.tsx:36-104 | the table's ids are unique, its prices positive, and each dish's category is one of the four tabs |
| Menu.ByCategoryMembers | src/components/MenuPanel.tsx:255-257 | a dish is listed under a tab exactly when it is in the table with that tab's category |
| Menu.ByCategoryAppend | src/components/MenuPanel.tsx:255-257 | filtering splits over concatenation, so each tab lists its dishes in table order |
| Menu.ByCategorySingle | src/components/MenuPanel.tsx:256 | a single dish is kept exactly when its category matches |
| Menu.ByCategoryShorter | src/components/MenuPanel.tsx:255-257 | a tab never lists more dishes than the table has |
| Menu.TabContents | src/components/MenuPanel.tsx:36-104 | the "main" tab lists the first three dishes in order; "desserts" only Gulab Jamun |
| Menu.EachDishUnderATab | src/components/MenuPanel.tsx:141-146 | every dish of the table appears under one of the four tabs |
| Menu.DishUnderOneTabOnly | src/components/MenuPanel.tsx:141-146 | no dish appears under two different tabs |
| Menu.CategoriesDistinct | src/components/MenuPanel.tsx:141-146 | the four tab ids are distinct |
| Menu.BumpedClamps | src/components/MenuPanel.tsx:148-153 | a click sets the counter to the old count (missing reads as 0) plus the step, raised to 0 if negative: exactly 0 when the sum is negative, exactly the sum otherwise, and no other dish's counter changes |
| Menu.PlusThenMinus | src/components/MenuPanel.tsx:148-153 | "+" then "−" gives back every counter as read before; "−" at 0 stays at 0 |
| Menu.ClicksBound | src/components/MenuPanel.tsx:148-153 | after any run of clicks all counters are non-negative, the dish's counter is at least its start plus the clicks' sum, and other dishes' counters are unchanged |
| Menu.PlusClicksAdd | src/components/MenuPanel.tsx:215 | n presses of "+" add exactly n |
| Menu.OrderLineFromItem | src/components/MenuPanel.tsx:155-165 | the order line copies the dish's id, name, price, category and veg flag, carries the dish's note (absent if none was typed), and orders the selected count when the button is enabled and 1 otherwise, so always at least 1 |
| Menu.MenuLineIsPriced | src/components/MenuPanel.tsx:36-104 | a line built from a table dish has a positive price and a tab category |
| Menu.MenuSelection.constructor | src/components/MenuPanel.tsx:107-108 | both records start empty |
| Menu.MenuSelection.UpdateQuantity | src/components/MenuPanel.tsx:148-153 | the counters become the clamped update of that one dish; notes unchanged; no counter negative |
| Menu.MenuSelection.SetNote | src/components/MenuPanel.tsx:225 | only that dish's note is set, and no counter turns negative |
| Menu.MenuSelection.HandleAddToCart | src/components/MenuPanel.tsx:155-170 | returns the order line built from the state before, with quantity at least 1; then that dish's counter is 0 (its add button disabled) and its note "", other dishes untouched |
| Menu.SamosaScenario | src/components/MenuPanel.tsx:148-170 | four "+", one "−" and a note on Samosa give a line of three Samosas with that note, and the counter returns to 0 |
| OrderStatus.CompletedFlags | src/components/OrderStatus.tsx:93-98 | there are four step flags |
| OrderStatus.CompletedIffReached | src/components/OrderStatus.tsx:93-98 | step k is completed iff the status is at or after step k's own status in the order, and step k's key is the (k+1)-th status |
| OrderStatus.NoneAndServed | src/components/OrderStatus.tsx:94-97 | with no order no step is completed; once served all four are |
| OrderStatus.CompletedIsMonotone | src/components/OrderStatus.tsx:94-97 | completed steps form a prefix: a completed step has every earlier step completed |
| OrderStatus.LaterStatusCompletesMore | src/components/OrderStatus.tsx:94-97 | a later status completes every step an earlier one does |
| OrderStatus.VisibilityFollowsSteps | src/components/OrderStatus.tsx:110-152 | the order-number badge and progress card show iff the status is not "none"; the estimated time and waiting card iff confirmed or preparing |
| OrderStatus.ConfigIsConsistent | src/components/OrderStatus.tsx:52-88 | each status has its own header look, and its background class is "bg-" followed by its color |
| OrderStatus.EstimatedTimeDefault | src/components/OrderStatus.tsx:15 | without a given time the screen shows 20 minutes; a given time is shown as given |
| OrderStatus.PreparingScenario | src/components/OrderStatus.tsx:93-98 | a preparing order has "Confirmed" and "Preparing" completed, "Ready" and "Served" not |
| Feedback.FilledStars | src/components/FeedbackForm.tsx:101-115 | five stars are drawn |
| Feedback.CountPrefix | src/components/FeedbackForm.tsx:109 | among n positions, those below r number r clamped to 0..n |
| Feedback.FilledStarsCount | src/components/FeedbackForm.tsx:109 | star s is filled iff s is at most the rating, so exactly `rating` stars are filled |
| Feedback.RatingLabels | src/components/FeedbackForm.tsx:51-57 | five labels in each language |
| Feedback.RatingLabel | src/components/FeedbackForm.tsx:117-119 | a label is shown iff a rating is chosen, at index rating − 1 of the five |
| Feedback.LabelDeterminesRating | src/components/FeedbackForm.tsx:51-57 | within a language the five labels are distinct, so the label shown names the rating |
| Feedback.QuickOptionsAreRatings | src/components/FeedbackForm.tsx:150-160 | the quick cards give ratings in 1..5, each a different one, so at most one card is highlighted |
| Feedback.FeedbackForm.constructor | src/components/FeedbackForm.tsx:12-14 | the form starts with no rating, no comment, not submitted |
| Feedback.FeedbackForm.SelectStar | src/components/FeedbackForm.tsx:101-104 | the rating becomes the star clicked (1 to 5); the rest is unchanged |
| Feedback.FeedbackForm.SelectQuickOption | src/components/FeedbackForm.tsx:160 | the rating becomes the card's rating, which is in range |
| Feedback.FeedbackForm.SetComment | src/components/FeedbackForm.tsx:129 | only the comment changes, and the rating stays in 0 to 5 |
| Feedback.FeedbackForm.HandleSubmit | src/components/FeedbackForm.tsx:59-72 | with no rating nothing changes and no reset is scheduled; otherwise the thank-you card is shown, rating and comment are kept, and a reset is scheduled; the rating stays in 0 to 5 |
| Feedback.FeedbackForm.ResetAfterDelay | src/components/FeedbackForm.tsx:67-71 | the form is cleared: no rating, empty comment, not submitted |
| Feedback.SubmitScenario | src/components/FeedbackForm.tsx:59-72 | a submit without a rating schedules no reset and shows no thank-you card; with four stars it thanks; after the reset the form is back at the start with submit disabled |

## Left out

- Rendering: JSX, CSS classes, icons and the user-interface library components (buttons, cards, tabs, badges).
- Translations: only the strings the modelled logic uses are kept. These are the two welcome messages, the two quick-action captions, the rating labels and the quick-card texts. Titles, descriptions and placeholders are left out.
- Timers: `setTimeout` is not modelled. The delayed chat reply is `Chatbot.Session.DeliverReply`, and the feedback reset is `Feedback.FeedbackForm.ResetAfterDelay`. The caller runs each when its delay is over. `SendMessage` and `HandleSubmit` return what the timer would do.
- Message ids and timestamps: `Date.now()` ids and `new Date()` timestamps read the clock, so a message is only its text and sender. The message `type` argument is never passed and is also left out.
- `console.log` of the submitted feedback is left out, because it is output. The rating and comment it would print are still in the state.
- The scroll-to-bottom effect is left out, because it acts on the page and not on the state.
- Chatbot.ToLower: it lowercases the ASCII letters only. JavaScript's `toLowerCase` also maps every other Unicode upper-case letter.
- React's batching and closure capture of `setState` are not modelled; each handler is one atomic transition. The delayed reply is chosen from the input as it was typed when the message was sent, as the closure in the source captures it.
- The order status in the session is never changed by any code in the app, so it stays "none" (`Chatbot.Session.Valid`). The status screen's logic is modelled for every status, through the pure functions of `OrderStatus`.
- The menu panel's `image` field is left out; no dish in the table sets it.
- TicTacToe.Game.MakeMove: the cell index must be 0 to 8. The board's nine buttons are its only caller, and they pass exactly those indexes.
- Chatbot.Session.AddToCart: the item's quantity must be at least 1, so cart quantities stay positive. Its only caller is the menu's "Add to Cart", which always passes at least 1 (`Menu.MenuSelection.HandleAddToCart` ensures `line.quantity >= 1`).
- Feedback.FeedbackForm.SelectStar: the star must be 1 to 5. The five star buttons are its only caller.
- Numbers: JavaScript's `number` (a double) for quantities, prices, ratings and the estimated time is modelled as unbounded `int`. The two agree on every integer up to 2^53, far above any count or price these screens reach.
- Feedback.SubmitDisabled and Menu.AddDisabled: the disabled buttons are modelled as predicates. The handlers behind them are still modelled for every input, as the source functions are.

## Design notes

- **Notes on a repeated cart add.** Adding a dish that is already in the cart keeps the first entry's notes and other fields and sums only the quantities (`Chatbot.MergeExisting`). The notes on the new line are dropped. This is the code's behaviour, and the model follows the code on this point rather than choosing another policy.
- **Welcome message.** When the language changes, the app's effect hook replaces the whole chat with the welcome message. Earlier messages are lost. `Chatbot.Session.ToggleLanguage` states this, and so does the constructor for the first display.
- **Blank input.** The blank test follows ECMAScript's `trim`: white space and line terminators, including the Unicode space separators.
- **Screens are unmounted.** `renderScreen` (src/components/RestaurantChatbot.tsx:161-171) draws only the current screen. Leaving the game, menu or feedback screen discards that component's state, so each return starts from its constructor: an empty board, empty counters and notes, an empty form.
- **Feedback is unreachable as written.** The chat shows four quick-action buttons: order, menu, games and status (src/components/RestaurantChatbot.tsx:205-232). None sends `'feedback'`, so `handleQuickAction`'s feedback branch and the feedback screen cannot be reached from the app as it stands. The model keeps the branch (`Chatbot.Session.HandleQuickAction`, `Chatbot.QuickActionsAreFixed`) as the handler defines it.
