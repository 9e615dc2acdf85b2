# Call Hub companion chat — a Dafny model of its logic

Call Hub is a browser front end for chatting with persona "agents". This project models
the parts of it that hold logic rather than layout:

- the agent catalog (`Agents`, from `src/data/agents.ts`): the `Agent` record, the six
  built-in agents and lookup by id as the pages do it with `agents.find`;
- the language-model adapter (`WebLLM`, from `src/lib/webllm.ts`): the system prompt built
  from a persona and an optional language, the engine handle created at most once, and the
  trimmed reply taken from a completion;
- the chat session (`Chat`, from `src/pages/Chat.tsx`): the messages, the input box and the
  token balance; a send that is ignored, refused or accepted; the canned agent reply that an
  accepted send schedules, delivered as a later step;
- the sign-in / sign-up form (`Auth`, from `src/pages/Auth.tsx`): field edits, the mode
  toggle and the ordered checks of a submit;
- the token shop (`Tokens`, from `src/pages/Tokens.tsx`): the package table, the message and
  call-minute figures derived from a token count, and the purchase button that only shows a
  notice;
- `Text` holds the JavaScript string behaviour the others rely on: `trim` (with the exact
  ECMA-262 whitespace set), `Array.prototype.join` and a decimal `parseInt`.

The hook state of the chat and sign-in pages and the module-level `enginePromise` of the
model adapter are classes whose methods change their fields (`Chat.ChatSession`,
`Auth.AuthForm`, `WebLLM.EngineCache`); the catalog, the package table and the string
functions are datatypes and functions.

The chat screen's reply is one of five fixed strings, picked at random (`Chat.tsx:68-84`),
and the balance is always even (`Chat.ChatSession.BalanceBounds`).

## Model

| member | source | states |
|---|---|---|
| `Agents.Catalog` | src/data/agents.ts:12-73 | the catalog lists lia, aria, mira, nova, eve, nyx in that order; ids are pairwise distinct; every agent is at least 18, has a non-empty description, exactly four traits and a voice model |
| `Agents.FindIndex` | src/pages/AgentProfile.tsx:12 | the position found holds the key and no earlier agent has it; `None` only when no agent has the key |
| `Agents.Find` | src/pages/Chat.tsx:21 | `agents.find`: `None` exactly when no agent has the id; otherwise the first agent of the list with that id |
| `Agents.FindOwnId` | src/data/agents.ts:14-64 | with distinct ids, looking up an agent's own id returns that very agent |
| `Agents.FindInCatalog` | src/pages/Chat.tsx:21-42 | a catalog lookup succeeds exactly for the six catalog ids; any other id gives the not-found view |
| `Text.Trim` | src/lib/webllm.ts:64 | `trim()`: the result neither starts nor ends with whitespace, is the slice right after the leading whitespace, and only whitespace follows it |
| `Text.TrimExactly` | src/lib/webllm.ts:64 | trimming whitespace + core + whitespace yields exactly the core, when the core has no whitespace at either end |
| `Text.TrimIdempotent` | src/lib/webllm.ts:64 | trimming twice is trimming once |
| `Text.BlankIffAllWhitespace` | src/pages/Chat.tsx:45 | `!input.trim()` holds exactly when every character of the input is whitespace (the empty input included) |
| `Text.JoinAppend` | src/lib/webllm.ts:27-48 | joining parts after one more push equals the earlier join, the separator, and the new part |
| `Text.ParseIntFormatInt` | src/pages/Auth.tsx:35 | `parseInt` reads back every integer typed in decimal (optional minus sign, digits) |
| `Text.ParseIntBlank` | src/pages/Auth.tsx:35 | a blank age field parses to `NaN` |
| `WebLLM.PromptParts` | src/lib/webllm.ts:26-47 | 4 to 6 parts: the introduction first; the description iff non-empty; the traits line iff there are traits; conciseness, safety, then the language instruction last |
| `WebLLM.BuildSystemPrompt` | src/lib/webllm.ts:26-49 | pushing the parts conditionally and joining with " \n" yields the joined `PromptParts` |
| `WebLLM.PromptBeginsWithIntroduction` | src/lib/webllm.ts:28-30 | the prompt starts with "You are {name}, an AI companion with a {personality} personality." |
| `WebLLM.PromptEndsWithLanguageInstruction` | src/lib/webllm.ts:39-48 | the prompt ends with " \n" and the language instruction: "Reply in {language}. …" when a non-empty language is given, the default-to-English sentence otherwise |
| `WebLLM.EngineCache.constructor` | src/lib/webllm.ts:4 | no engine exists at module load |
| `WebLLM.EngineCache.GetEngine` | src/lib/webllm.ts:8-18 | the engine is created at most once, for the first caller's model (or the default model); later calls return the same engine, or the same cached rejection, whatever model they ask for |
| `WebLLM.Generate` | src/lib/webllm.ts:51-65 | a newly created engine is for the default model; a rejected engine rejects the call before anything is sent; otherwise the request is the system prompt then the user text; a rejected completion rejects the call; else the reply is the content trimmed, with no surrounding whitespace, and "" when there is no content |
| `Chat.ChatSession.constructor` | src/pages/Chat.tsx:21-31 | the agent is the catalog lookup of the id; the session starts with exactly the greeting, an empty input, 100 tokens and no pending reply |
| `Chat.ChatSession.SetInput` | src/pages/Chat.tsx:166 | typing replaces the input and nothing else |
| `Chat.ChatSession.Send` | src/pages/Chat.tsx:44-66 | a blank input is ignored and a balance below 2 refused, the blank check first, both changing nothing; otherwise exactly one user message with the untrimmed input is appended after the unchanged earlier messages, the input is cleared, 2 tokens are debited and one reply is scheduled |
| `Chat.ChatSession.DeliverReply` | src/pages/Chat.tsx:68-84 | a scheduled reply appends one agent message, one of the five canned strings, after all existing messages, and changes neither input nor balance |
| `Chat.ChatSession.BalanceBounds` | src/pages/Chat.tsx:31-65 | the balance stays between 0 and 100 and even, so at most 50 sends are ever accepted |
| `Auth.AuthForm.constructor` | src/pages/Auth.tsx:14-21 | the form opens in sign-in mode, box unticked, all fields empty |
| `Auth.AuthForm.SetName` | src/pages/Auth.tsx:93 | changes the name field only |
| `Auth.AuthForm.SetAge` | src/pages/Auth.tsx:109 | changes the age field only |
| `Auth.AuthForm.SetEmail` | src/pages/Auth.tsx:128 | changes the email field only |
| `Auth.AuthForm.SetPassword` | src/pages/Auth.tsx:144 | changes the password field only |
| `Auth.AuthForm.SetOver18` | src/pages/Auth.tsx:155 | changes the 18+ box only |
| `Auth.AuthForm.ToggleMode` | src/pages/Auth.tsx:183 | flips sign-in/sign-up and nothing else |
| `Auth.AuthForm.HandleSubmit` | src/pages/Auth.tsx:23-53 | sign-in is never refused; sign-up without the box ticked is refused whatever the age; with it ticked, an age parsing below 18 is refused and an unparsable age passes; no state changes |
| `Auth.TypedAgeDecides` | src/pages/Auth.tsx:35 | for an age typed in decimal, the age refusal applies exactly below 18 |
| `Auth.BlankAgePasses` | src/pages/Auth.tsx:35 | an empty age field does not trigger the age refusal (`NaN < 18` is false) |
| `Tokens.Packages` | src/pages/Tokens.tsx:9-39 | three packages starter/popular/premium with 50/150/500 tokens at 99/249/699; exactly the middle one is marked popular |
| `Tokens.MessagesFor` | src/pages/Tokens.tsx:143 | the message figure is the largest count whose cost at 2 tokens each fits in the tokens |
| `Tokens.MinutesFor` | src/pages/Tokens.tsx:147 | the call-minute figure is the largest count whose cost at 5 tokens each fits in the tokens |
| `Tokens.BonusIsDisplayOnly` | src/pages/Tokens.tsx:122-147 | the bonus text changes none of a card's price, token, message or minute figures |
| `Tokens.PackageFigures` | src/pages/Tokens.tsx:131-147 | the cards show 25/75/250 messages and 10/30/100 call minutes |
| `Tokens.HandlePurchase` | src/pages/Tokens.tsx:45-51 | a purchase only yields the "Payment Coming Soon" notice; it modifies no state |

## Left out

- Rendering, animation, CSS classes and icons: no logic. `src/pages/Index.tsx`,
  `src/components/Navbar.tsx` (its balance is a fixed display default) and
  `src/components/AgentCard.tsx` are presentational and not part of this model;
  `src/pages/AgentProfile.tsx` is modelled only for its id lookup.
- Routing, toasts and the `setTimeout` delays: a toast is the outcome value a method returns;
  the reply timer is the separate step `DeliverReply`.
- Message ids and timestamps (`Date.now()`, `new Date()`): a `Message` is its role and content.
- `Math.random`: the reply index is the parameter `choice`, below 5 as `Math.floor(Math.random() * 5)` always is.
- Overlapping reply timers: replies are delivered one at a time, tracked by a pending counter.
- `CreateMLCEngine` and `engine.chat.completions.create` are a foreign, asynchronous library:
  the promise is the value it settles to (an engine naming its model, or a rejection), and
  whether creation succeeds and what the completion returns are parameters of `Generate`. The sampling parameters
  `temperature` and `top_p` are floating point and not modelled.
- WebLLM.EngineCache.GetEngine: two engines for the same model would be equal values, so the
  creation count (a ghost field) stands in for the handle's identity.
- The progress callback that logs initialisation reports.
- `parseInt` is modelled for base 10 only: its `0x` hexadecimal prefix is not, because the age
  box is a number input, whose value never holds one.
- The browser's own form validation (`required`, `min="18"`, `type="email"`) runs before the
  submit handler and is not modelled.
- The Razorpay payment and the package icons.
- WebLLM.PromptParts: "exactly one language instruction" is stated as every part being pinned
  to its position with the language instruction last; a description whose text happened to
  equal a language instruction would not be told apart.
- Tokens.HandlePurchase: the contract states the notice's title only, not its description text.
- The conciseness sentence keeps the characters the source file holds (`1â€“2`, a mis-encoded
  en dash) as an opaque constant.
