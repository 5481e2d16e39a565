# popis.po-agent in Dafny

A Dafny model of the control logic of popis.po-agent: an HTTP-driven agent that evaluates tweets, mints meme tokens on Moonshot and trades them with custodial user wallets.

The model covers five parts:

- **The `/api/interact` conversation loop** (`Chatbot`). A per-chunk step function over the four variables `nextStep`, `nextStepInput`, `lastToolUsed` and `response`. A method runs one stream in place, and another runs the outer pass loop. Each method is proved equal to its specification function. `validateEnvironment` is modelled alongside.
- **The tool handlers** of the Moonshot action provider (`Tools`, `SellRetry`). The guard chains, the texts returned to the agent, the chain calls made, the bounded "nonce too low" retry of `sell_token`, and the address rule and ordered effects of `create_moonshot_token`.
- **The sniper fan-out** `buyBulk` (`BuyBulk`).
- **The directory** (`Db`). A class whose `seq` fields are the `tokens`, `users`, `wallets` and `snipers` tables. It enforces the constraints of the DDL: SERIAL ids, UNIQUE username, UNIQUE wallet owner, the wallets-to-users foreign key and the VARCHAR lengths. Its queries keep their filter semantics.
- **The zod argument validators** (`Schemas`): required and optional fields, and `.strip()`.

Everything outside the process becomes a parameter:

- the language model's stream;
- `JSON.parse` and `JSON.stringify`;
- bcrypt and jwt;
- the chain and SDK answers;
- the random key pair.

An error a handler catches is carried as the text its template interpolation renders it to.

Four behaviours of the code are easy to miss, and the model follows the code in each:

- Only `sell_token` retries on "nonce too low" (moonshot/moonshotActionProvider.ts:497-531). `buy_token` and `send_eth` make a single attempt.
- `get_balance` throws instead of returning a message when the user has no wallet (moonshot/moonshotActionProvider.ts:244-245).
- `create_user_wallet` and `stop_sniping` cannot report a database error, because their `try` blocks do not await the call (moonshot/moonshotActionProvider.ts:227-235 and 577-582).
- `create_moonshot_token` treats a mint receipt without status 1 as a success. The address stays "", yet the token is recorded with it, the post goes out, the snipers' purchases are started for address "", and the success text is returned (moonshot/moonshotActionProvider.ts:80-131).

## Model

| member | source | states |
|---|---|---|
| Chatbot.Instruction | chatbot.ts:175-179 | the instruction is `nextStepInput` exactly when `nextStep` is "moonshot_create", the request's message otherwise |
| Chatbot.MintInstruction | chatbot.ts:202-206 | the queued instruction embeds the stringified verdict, which can be read back out of it |
| Chatbot.Step | chatbot.ts:189-225 | one chunk: only an `end_turn` changes `response`, never back to unassigned; a mint is queued only by an `end_turn` after the evaluator, which also clears `lastToolUsed`; only the evaluator's `tools` chunk marks it as the last tool |
| Chatbot.RunPass | chatbot.ts:185-226 | the in-place `for await` over one stream ends in the state `Fold` gives for that stream |
| Chatbot.Interact | chatbot.ts:157-239 | the handler answers 400 for a falsy message, 500 when the stream fails, else passes until a truthy response; equals `InteractSpec` |
| Chatbot.Passes | chatbot.ts:172-231 | the `while (true)` never answers 400; it leaves with an answer only when the response is truthy, after at least one and at most `fuel` more instructions |
| Chatbot.InteractSpec | chatbot.ts:162-172 | 400 exactly when `message` is falsy; an answer carries a truthy response and between one and `fuel` instructions |
| Chatbot.ToolsChunkStep | chatbot.ts:217-225 | an evaluator tools chunk only sets `lastToolUsed`; any other name clears the three control variables; `response` is untouched |
| Chatbot.EndTurnOutsideEvaluator | chatbot.ts:188-196 | outside the evaluator an `end_turn` sets `response` to the parsed content, else the raw content, and nothing else |
| Chatbot.MemeVerdictQueuesMint | chatbot.ts:197-212 | a verdict with `likelyMeme === true` queues the mint instruction, clears `lastToolUsed`, leaves `response`, and the next instruction is the queued one |
| Chatbot.NonMemeVerdictResponds | chatbot.ts:207-212 | any other parsed, non-null verdict becomes the response and clears the control variables |
| Chatbot.NoChangeChunks | chatbot.ts:188-213 | a chunk without agent or tools, an agent chunk without `end_turn`, and an unparseable or null verdict change nothing |
| Chatbot.FoldAppend | chatbot.ts:185-226 | consuming a stream in two parts is consuming it whole |
| Chatbot.ResponseNeverReset | chatbot.ts:160-196 | once assigned, `response` is never unassigned by later chunks |
| Chatbot.LastEndTurnWins | chatbot.ts:188-225 | without the evaluator, the last `end_turn` of a stream decides `response`, as the reference scan from the end says |
| Chatbot.RespondedIsTruthy | chatbot.ts:172-231 | the pass loop leaves only with a truthy response, after 1 to `fuel` passes, extending the instructions already sent |
| Chatbot.InteractRespondsTruthy | chatbot.ts:163-233 | an answered request carries a truthy response and its first instruction is the request's message |
| Chatbot.FalsyResponseAnotherPass | chatbot.ts:228-231 | a stream that leaves `response` falsy (such as "") starts another pass from the state reached |
| Chatbot.NoEndTurnKeepsResponse | chatbot.ts:188-225 | a stream with no `end_turn` chunk leaves `response` as it was |
| Chatbot.StreamWithoutEndTurnAnotherPass | chatbot.ts:185-231 | from a falsy response, a stream with no `end_turn` (tool calls only, say) always leads to another pass |
| Chatbot.MemeVerdictThenMintPass | chatbot.ts:175-219 | evaluator then meme verdict: the second pass sends the mint instruction instead of the message |
| Chatbot.MissingVars | chatbot.ts:35-40 | the unset required names, at most as many as declared |
| Chatbot.CollectMissing | chatbot.ts:32-40 | the first `forEach` pushes exactly `MissingVars` in order |
| Chatbot.ReportMissing | chatbot.ts:43-47 | the heading, then one `NAME=your_name_here` line per missing name, in order |
| Chatbot.ValidateEnvironment | chatbot.ts:31-55 | exits iff some required variable is unset or empty; otherwise warns iff NETWORK_ID is unset |
| Chatbot.MissingVarsMembers | chatbot.ts:35-40 | a name is reported missing iff it is required and unset |
| Chatbot.NoMissingVarsIffAllSet | chatbot.ts:35-43 | nothing is missing iff all three required variables are set |
| Chatbot.MissingVarsInOrder | chatbot.ts:35-40 | the missing names are a subsequence of the declared order |
| SellRetry.Retry | moonshot/moonshotActionProvider.ts:497-531 | the loop pass by pass: one submission per pass, the first with the current nonce |
| SellRetry.SellRetryLoop | moonshot/moonshotActionProvider.ts:497-531 | the loop updating `nonce` and `attempts` in place equals `Retry` from attempt 0 |
| SellRetry.SoldIff | moonshot/moonshotActionProvider.ts:500-531 | the sale succeeds iff some pass is confirmed after passes that all went round with fewer nonce errors than attempts left |
| SellRetry.FifthNonceErrorRethrown | moonshot/moonshotActionProvider.ts:521-527 | the fifth "nonce too low" error is rethrown, after one submission per pass |
| SellRetry.NonceErrorsBounded | moonshot/moonshotActionProvider.ts:521-527 | the loop never consumes more nonce errors than the attempts it has |
| SellRetry.OtherErrorRethrownAtOnce | moonshot/moonshotActionProvider.ts:528-530 | any other error is rethrown after a single submission |
| SellRetry.RetryUsesRereadNonce | moonshot/moonshotActionProvider.ts:522-523 | after a nonce error the next submission uses the nonce read again |
| BuyBulk.FirstRow | moonshot/buyBulk.ts:7 | `rows[0]`: present iff the result is non-empty, and then the first row |
| BuyBulk.BuyBulk | moonshot/buyBulk.ts:4-13 | one attempt per item in order, with the user's first wallet, the item's amount and the shared address; a missing wallet fails alone; never throws |
| BuyBulk.WalletOf | moonshot/moonshotActionProvider.ts:297-298 | the user's wallet is present iff some wallet row belongs to the user |
| Tools.TweetEvaluator | moonshot/moonshotActionProvider.ts:181-213 | no effect; the prompt contains the tweet, the link, and the retweet and like counts |
| Tools.CreateUserWallet | moonshot/moonshotActionProvider.ts:221-236 | as written: always reports the new address; the wallet is stored only if the insert succeeds; the wallet SERIAL advances and the other counters are kept |
| Tools.DuplicateWalletReportedCreated | moonshot/moonshotActionProvider.ts:227-235 | any user whose wallet is the only one stored and who asks again (new key and address within 255 characters) is told the new address was created, while the stored wallet stays the only one |
| Tools.SecondWalletRefused | data/db.ts:38 | once a user has a wallet row, inserting another for that user fails with the UNIQUE error |
| Tools.CreateUserWalletAwaited | moonshot/moonshotActionProvider.ts:227-235 | corrected: reports the address when the row is stored, the database error otherwise; the wallet SERIAL advances and the other counters are kept |
| Tools.GetBalance | moonshot/moonshotActionProvider.ts:243-262 | as written: throws iff the user has no wallet; otherwise the balance or the fetch error |
| Tools.GetBalanceGuarded | moonshot/moonshotActionProvider.ts:243-262 | corrected: never throws; no wallet gives the "create it first" text |
| Tools.FoundText | moonshot/moonshotActionProvider.ts:276-283 | the found prompt carries the rendered token, readable back |
| Tools.SearchToken | moonshot/moonshotActionProvider.ts:272-289 | as written: a found token is rendered as "[object Object]", none gives the not-found text |
| Tools.SearchTokenHidesToken | moonshot/moonshotActionProvider.ts:275-280 | two different found tokens give the same reply |
| Tools.SearchTokenShown | moonshot/moonshotActionProvider.ts:272-289 | corrected: the reply carries the token's rendering, readable back |
| Tools.SearchTokenShownDistinguishes | moonshot/moonshotActionProvider.ts:275-280 | corrected: tokens rendered differently give different replies |
| Tools.GetPrivateKey | moonshot/moonshotActionProvider.ts:296-306 | with a wallet the reply contains its stored key; without one the "create it first" text |
| Tools.SendEth | moonshot/moonshotActionProvider.ts:317-344 | no wallet: the "create it first" text and no transfer; with a wallet, a balance of 10^21 or more in magnitude prints in exponent form, so `parseEther` throws outside the `try` and nothing is attempted; otherwise one transfer is attempted with the wallet's key, and the reply gives the hash or the error |
| Tools.BuyToken | moonshot/moonshotActionProvider.ts:355-435 | guards in order wallet, token, amount > 0; a purchase iff all pass; an unconfirmed receipt resolves to undefined; a thrown purchase or a failed balance read gives the buy-error text |
| Tools.Submissions | moonshot/moonshotActionProvider.ts:508-513 | one sell attempt with the wallet's key per nonce tried, in order |
| Tools.SellToken | moonshot/moonshotActionProvider.ts:445-545 | guards wallet then token; zero balance stops before approval; otherwise approval then the retry loop, whose verdict decides the reply |
| Tools.SnipeTokens | moonshot/moonshotActionProvider.ts:555-569 | registers the user only with a wallet and a positive amount; otherwise the no-wallet or zero-balance text |
| Tools.StopSniping | moonshot/moonshotActionProvider.ts:576-583 | removes the user's registration and always reports success |
| Tools.CreatedTokenAddress | moonshot/moonshotActionProvider.ts:78-90 | the first log's address only for a status-1 receipt, "" for any other; an error when submission throws or no log exists |
| Tools.NarrativeMentions | moonshot/moonshotActionProvider.ts:116-131 | the success reply contains `tweet: `, `name: `, `symbol: ` and `createdTokenAddress: ` each followed by its value |
| Tools.CreateMoonshotToken | moonshot/moonshotActionProvider.ts:32-137 | never throws; once an address is known: record the token, then post, then at most one fan-out only if the snipers were read, each of whose attempts carries the sniper's wallet row at that moment and the purchase's result (the missing-wallet TypeError without a row); the token SERIAL advances exactly when an address is known, and the other counters are kept |
| Db.Coerce | data/db.ts:20-25 | a VARCHAR(n) value: kept if it fits, cut to exactly its first n characters if only spaces overflow, else the length error |
| Db.TokenInsert | data/db.ts:17-26 | the token row is built iff every length check passes, with the given id and optional fields |
| Db.UserInsert | data/db.ts:28-33 | a user row iff the lengths pass and the username is free; a taken name is the UNIQUE error |
| Db.WalletInsert | data/db.ts:35-41 | a wallet row iff the lengths pass, the user has no wallet and exists; an existing wallet is the UNIQUE error |
| Db.WalletInsertKeepsConstraints | data/db.ts:35-41 | an accepted wallet row keeps ids rising below the next serial, one wallet per user and every wallet's user existing |
| Db.WalletsOf | data/db.ts:119-124 | the wallet rows are exactly those of the user |
| Db.WalletsOfAtMostOne | data/db.ts:38 | with `user_id` unique, a user has at most one wallet row |
| Db.FirstMatch | data/db.ts:132-141 | a row matching name, symbol or address is found iff one exists |
| Db.Upsert | moonshot/moonshotActionProvider.ts:561 | `createSniper`: the user's registration is set to the amount, the others kept, uniqueness preserved (the table is not in data/db.ts; see "Left out") |
| Db.WithoutUser | moonshot/moonshotActionProvider.ts:578 | `deleteSniperByUserId`: exactly the other users' registrations remain, uniqueness preserved (the table is not in data/db.ts; see "Left out") |
| Db.Directory.CreateToken | data/db.ts:54-69 | appends exactly the built row, or nothing on a constraint error; the serial advances either way |
| Db.Directory.RegisterUser | data/db.ts:72-83 | stores `hash(password)`; a taken username fails with the UNIQUE error |
| Db.Directory.LoginUser | data/db.ts:86-103 | a token iff the username exists and `compare` accepts the password; otherwise the invalid-credentials error |
| Db.Directory.CreateWallet | data/db.ts:106-116 | fails with the UNIQUE error when the user already has a wallet; otherwise appends exactly one row and returns its id |
| Db.Directory.CreateSniper | moonshot/moonshotActionProvider.ts:561 | the snipers table becomes `Upsert` of the old one and the table invariant is kept; nothing else may change |
| Db.Directory.DeleteSniperByUserId | moonshot/moonshotActionProvider.ts:578 | the snipers table becomes `WithoutUser` of the old one and the table invariant is kept; nothing else may change |
| Db.Directory.GetAllSnipers | moonshot/moonshotActionProvider.ts:105 | every registration is returned, each exactly once (as a multiset) |
| Db.Directory.GetWalletByUserId | data/db.ts:119-129 | the user's wallet rows, at most one |
| Db.Directory.FindTokenByParameter | data/db.ts:132-146 | a matching row iff one exists, else none |
| Db.Directory.GetTokenById | data/db.ts:149-162 | the row with that id iff one exists, else none |
| Db.Directory.GetAllTokens | data/db.ts:165-177 | every row, each once |
| Schemas.CheckFields | moonshot/schemas.ts:3-19 | all declared field checks pass |
| Schemas.Strip | moonshot/schemas.ts:20 | keeps exactly the declared keys present, with their values |
| Schemas.Validate | moonshot/schemas.ts:3-50 | accepts iff an object passes every field check; the output is the stripped object |
| Schemas.ValidateIdempotent | moonshot/schemas.ts:20 | validating a validated output returns it unchanged |
| Schemas.CreateSchemaAccepts | moonshot/schemas.ts:3-21 | accepts iff `name` and `symbol` are strings and every other present field has its kind |
| Schemas.EvaluatorSchemaAccepts | moonshot/schemas.ts:23-36 | requires `tweet`, `retweets`, `likes`, `link` of their kinds; the output has exactly those keys |
| Schemas.SingleFieldSchemasAccept | moonshot/schemas.ts:38-50 | `userId` must be a number and `searchTerm` a string; nothing else survives |
| Json.Property | chatbot.ts:200 | reading a property of null is a TypeError; an object gives its own field, else undefined |

## Left out

- The language model, LangChain, AgentKit and the CDP wallet provider. The stream is an input and `JSON.parse`/`JSON.stringify` are parameters. An agent message whose content is not a string, or whose `messages` is empty, is not modelled.
- Chatbot.Interact: the outer `while (true)` has no bound. The model gives it `fuel` passes and ends with `OutOfFuel`, which the source never does.
- SellRetry.Retry: a receipt without status 1 and without an error loops again without counting. The chain's answers are a finite sequence, and running out of them is `Stalled`/`Pending`, where the source would keep looping.
- The chain, the Moonshot SDK, ethers, `parseEther` and `formatEther`. Their answers are parameters. Amounts are integers, and only their sign is checked. Gas, fee data and the mint transaction's contents are not modelled.
- services/moonshot/buy.ts, services/moonshot/api.ts and data/twitter.ts are not part of this model. `buyToken` is a parameter, and a post is recorded as an effect.
- Promise timing and concurrency. The calls that are not awaited (`createToken`, `postTweet`, `buyBulk`, `createWallet`, `deleteSniperByUserId`) are applied at once, in program order. Their rejections are not modelled, nor is the crash an unhandled rejection can cause.
- Database connectivity failures. Only constraint violations are modelled. `createSniper`, `deleteSniperByUserId` and `getAllSnipers` are not defined in data/db.ts. They are modelled as an upsert, a delete and a full read of a `snipers` table keyed by user. `SnipersFetch` stands for what `getAllSnipers` might resolve to.
- `BuyTokenSchema`, `SellTokenSchema`, `UserSendBalanceSchema` and `UserSnipeTokensSchema` are not defined in moonshot/schemas.ts. Their fields are inferred from the handlers' uses.
- Db.Directory.FindTokenByParameter: the query's `LIMIT 1` has no `ORDER BY`, so which match comes back is unspecified. The model returns the first match in table order.
- Db.Directory.GetAllTokens: the query promises no order. The contract states only that every row is returned once.
- Tools.CreateMoonshotToken: the handler reads `mockImg`, `url`, `label` and `tokenAmount` from its schema but never uses them. They are not arguments of the model.
- The `auxiliar_xisk` and `hater_xisk` tools return a constant text and are not modelled.
- The other HTTP routes, CORS, `initializeAgent`, the wallet file and `main` are not modelled. Neither is `process.exit`, which the model records as the `exits` flag.
- Console logging.
- Tools.SendEth: the balance is an integer. JavaScript numbers above 2^53 lose precision and fractional ETH amounts are not modelled. The text `parseEther` throws is a parameter.
- Text.NumberText: renders every integer as plain digits. `String(n)` switches to exponent form from 10^21 in magnitude; the model uses that bound only where `send_eth` throws on it.

## Findings

| source | as written | input that shows it | evidently intended | confidence | as-written member | corrected member |
|---|---|---|---|---|---|---|
| moonshot/moonshotActionProvider.ts:275-280 | the found token is interpolated as `${token}`, which renders a row object as "[object Object]" | any search that finds a token; two different tokens give identical replies | the reply carries the token's fields (for instance `JSON.stringify(token)`) | not executed | Tools.SearchTokenHidesToken | Tools.SearchTokenShownDistinguishes |
| moonshot/moonshotActionProvider.ts:227-235 | `createWallet` is not awaited, so the `catch` cannot see its failure and success is always reported | user 1 owns wallet 0xA and asks for another; the insert violates `wallets_user_id_key` but the reply announces 0xB | the error is reported when the wallet was not stored | not executed | Tools.DuplicateWalletReportedCreated | Tools.CreateUserWalletAwaited |
| moonshot/moonshotActionProvider.ts:244-245 | `wallets[0].wallet_address` is read with no wallet check | a user without a wallet asks for the balance; the handler throws a TypeError | the "create it first" text, as in `get_private_key` and `send_eth` | not executed | Tools.GetBalance | Tools.GetBalanceGuarded |
