# AI-powered grant distribution on Celo: a Dafny model of the core

This project models the core of a Next.js application for a grant programme on the Celo
Alfajores network. Projects register and propose themselves for a grant. An AI model scores
their GitHub activity. Companies assigned to a project vote on it on the ledger. An owner-only
admin panel manages scoring and distribution. The model covers seven parts of the application:

- **Company voting panel** (`VotingPanel`):
  - Normalising the projects read from the ledger for the company's assigned ids.
  - The zero defaults of the repository metrics sent to the AI analysis.
  - The score colour bands and the choice of action area on a project card.
  - The vote guard. It is a single slot for the whole panel (`isVotingRef`, `votingProjectId`,
    `votingSupport`), not one per project. While any vote is outstanding, every vote is refused.
  - The class `Panel` holds the guard fields. The functions `VoteStep`, `Released` and `Run` state
    the same transitions on values, and the lemmas about them say what the guard promises over
    any sequence of clicks, confirmations and transaction errors.
- **Ledger event endpoint** (`EventsRoute`, `POST /api/contract/events`):
  - The event name is checked against the four known event signatures.
  - The block range defaults to the last 10000 blocks. The lower end is not clamped at zero.
  - Big integers are written as decimal text, and the logs keep their order and count.
  - A bad request gets a 400 envelope, any later failure a 500 envelope.
- **Project endpoint** (`ProjectsRoute`, `POST`/`GET /api/projects`):
  - A POST needs the address, name and repository URL, and fills in the row defaults.
  - A GET lists the active rows, highest impact score first.
- **Project registration** (`RegisterProject`):
  - Three requests run in a fixed order. The first failure aborts the run, and the form is
    cleared only on full success.
  - The persist request carries no AI score, so the stored `impact_score` is always 0.
- **Grant proposal** (`ProjectProposal`):
  - All four fields must be filled in.
  - One `proposeProject` write carries the amount scaled to 18 decimals.
  - The fields are reset when the transaction is confirmed.
- **Admin gate** (`AdminPanel`):
  - The owner test ignores letter case. With no configured owner, every connected wallet is
    admitted.
  - The panel shows loading, then "connect your wallet", then "access denied", then itself.
- **Leaderboard** (`ProjectLeaderboard`):
  - Rank colours and badges, keeping the order the project endpoint serves.

The network, the ledger client, the database, the AI endpoint and the wallet are not modelled
as code. Their answers are parameters: a `Ledger` value, a `Store` outcome, an `Answer` per
request, or a `writeThrows` flag. Handlers report the calls they issue as a sequence of call
values. JavaScript truthiness is explicit: `Option<string>` with `Truthy`, and `||` defaults as
`OrElse`/`GetOr`.

The 3-of-5 approval rule and the grant distribution are shown to users only as text. The
application's code does not implement them, so the model has nothing for them.

## Model

| member | source | states |
|---|---|---|
| Common.ParseInteger | app/api/contract/events/route.ts:43-44 | `BigInt(text)` succeeds exactly on an optional '-' followed by at least one digit |
| Common.IntDecimalRoundTrip | app/api/contract/events/route.ts:60-70 | reading back the decimal text of any big integer gives the same integer |
| Common.NatDecimalRoundTrip | app/api/contract/events/route.ts:62 | the digits written for a block number read back to that number |
| Common.IntToDecimalInjective | app/api/contract/events/route.ts:60-70 | distinct big integers get distinct decimal texts, so serialisation loses nothing |
| Common.ParseIntPrefix | components/company/VotingPanel.tsx:129-141 | `parseInt` agrees with `BigInt` on integer text and gives NaN on empty text |
| Common.ParseIntStopsAtNonDigit | components/company/VotingPanel.tsx:136-141 | `parseInt` reads the leading digits and ignores what follows them |
| EventsRoute.KindOf | app/api/contract/events/route.ts:13-37 | a name is accepted exactly when it is one of the four known event signatures |
| EventsRoute.ResolveBound | app/api/contract/events/route.ts:43-44 | a missing, 0 or empty bound takes the fallback; a number is taken as is; text must be an integer or the conversion fails with "Cannot convert … to a BigInt" |
| EventsRoute.SerializeLogRepresents | app/api/contract/events/route.ts:60-70 | a serialised log carries its block number, hash, index and every argument, with big integers recoverable from their text |
| EventsRoute.Post | app/api/contract/events/route.ts:20-87 | a missing name or an unknown event gives a 400 before any ledger call; otherwise the current block is read first and logs are queried for the resolved range; a bound that does not convert is a 500 with the conversion message; with the current block and both bounds converted the logs are queried once, and the answer is 200 exactly when they arrive, with one serialised entry per log, in order, and count equal to the number of logs; a ledger transport error is a 500 with its message or "Failed to fetch events" |
| EventsRoute.DefaultRange | app/api/contract/events/route.ts:42-44 | with no bounds the query covers current−10000 to current, with no clamp at zero |
| ProjectsRoute.ImpactScoreOf | app/api/projects/route.ts:51 | a missing score is stored as 0, a given one as given |
| ProjectsRoute.NewRow | app/api/projects/route.ts:44-55 | the inserted row has the given fields, no grants, active and unverified; an empty transaction hash becomes null; a ledger id of 0 is kept |
| ProjectsRoute.Post | app/api/projects/route.ts:29-75 | missing address, name or URL gives 400 "Missing required fields" with the table unchanged; a store error gives 500 with its message or "Failed to create project"; otherwise exactly one row, the one returned, is appended |
| ProjectsRoute.ActiveRows | app/api/projects/route.ts:9 | every active row is kept with its multiplicity, and no inactive row is |
| ProjectsRoute.InsertByScore | app/api/projects/route.ts:10 | inserting into a score-descending list keeps it descending and adds exactly that row |
| ProjectsRoute.OrderByScoreDesc | app/api/projects/route.ts:10 | the ordering is score-descending and a permutation of its input |
| ProjectsRoute.Get | app/api/projects/route.ts:4-27 | a store error gives 500 with its message or "Failed to fetch projects"; otherwise 200 with exactly the active rows, highest score first |
| ProjectsRoute.CreatedRowIsListed | app/api/projects/route.ts:29-75 | a row created by a successful POST appears in the next successful listing, which holds only active rows |
| VotingPanel.IdOf | components/company/VotingPanel.tsx:129 | a number id is kept; integer text is parsed; a missing id is NaN and null is 0 |
| VotingPanel.CountOf | components/company/VotingPanel.tsx:136-141 | a missing vote count is 0; numbers are kept; integer text is parsed |
| VotingPanel.AmountOf | components/company/VotingPanel.tsx:133-135 | a text amount is kept, an integer amount is written as decimal text that reads back to it, and a missing one is "0" |
| VotingPanel.Normalize | components/company/VotingPanel.tsx:128-145 | every field of the normalised project: the id and vote counts as parsed, the amount as text, and the defaults 'Unnamed Project', 'No description', '' and false for missing fields |
| VotingPanel.Accepted | components/company/VotingPanel.tsx:117-152 | a read yields a project exactly when the response was ok and the body has success and a result |
| VotingPanel.Collect | components/company/VotingPanel.tsx:106-156 | the collected projects are never more than the ids, all are kept exactly when every read succeeds, and each comes from an accepted read |
| VotingPanel.CollectAppend | components/company/VotingPanel.tsx:155-156 | the projects keep the order of the assigned ids: collecting two lists one after the other gives the two results concatenated |
| VotingPanel.CollectOne | components/company/VotingPanel.tsx:106-156 | one id contributes its project exactly when its read is accepted |
| VotingPanel.AssignedProjects | components/company/VotingPanel.tsx:95-99 | no assigned list, or an empty one, gives no projects; otherwise the collected reads |
| VotingPanel.MetricsFor | components/company/VotingPanel.tsx:171-201 | a thrown fetch abandons the analysis; a not-ok response or unsuccessful body gives all zeros; each missing field of a good body is 0 |
| VotingPanel.Band | components/company/VotingPanel.tsx:344-354 | scores of 80 and above are high, from 60 below 80 medium, below 60 low |
| VotingPanel.ScoreColor | components/company/VotingPanel.tsx:344-348 | green, yellow and orange text exactly for the high, medium and low bands |
| VotingPanel.ScoreBgColor | components/company/VotingPanel.tsx:350-354 | green, yellow and orange backgrounds exactly for the high, medium and low bands |
| VotingPanel.BandMonotone | components/company/VotingPanel.tsx:344-354 | a higher score never falls in a lower band |
| VotingPanel.ActionFor | components/company/VotingPanel.tsx:521-600 | funded wins over approved, approved over the vote buttons, and the vote buttons need an analysis |
| VotingPanel.AnalyzeButtonShown | components/company/VotingPanel.tsx:445 | the analysis button shows exactly for unfunded projects without an analysis |
| VotingPanel.VoteButtonsDisabled | components/company/VotingPanel.tsx:543 | the vote buttons are enabled exactly when nothing is pending or confirming and no project is being voted on |
| VotingPanel.VoteButtonLabel | components/company/VotingPanel.tsx:547-590 | only the clicked button on the card being voted on shows progress: "Confirming" exactly while pending, "Processing" exactly while confirming and not pending |
| VotingPanel.VoteStep | components/company/VotingPanel.tsx:256-311 | a held guard refuses every vote and changes nothing; a free guard records the project and support and issues exactly one `voteOnProject` write; a write that throws releases the guard; guard consistency is preserved |
| VotingPanel.Released | components/company/VotingPanel.tsx:325-342 | confirmation and transaction error both leave the guard free and consistent |
| VotingPanel.RunBalanced | components/company/VotingPanel.tsx:256-342 | over any run of clicks, confirmations and errors the guard stays consistent and writes issued equal releases plus the change in the guard |
| VotingPanel.AtMostOneOutstanding | components/company/VotingPanel.tsx:256-342 | from a free guard at most one write is ever outstanding, and the guard is held exactly when one is |
| VotingPanel.GuardIsGlobal | components/company/VotingPanel.tsx:256-275 | after a vote is accepted, a click on any project with either support is refused |
| VotingPanel.RetryAfterThrow | components/company/VotingPanel.tsx:305-311 | after a write throws, the next click is accepted |
| VotingPanel.Panel.constructor | components/company/VotingPanel.tsx:35-44 | the panel starts with no projects and a free guard |
| VotingPanel.Panel.HandleVote | components/company/VotingPanel.tsx:239-312 | the new guard and outcome are those of `VoteStep`; a write is recorded exactly when one is submitted; the projects are untouched |
| VotingPanel.Panel.FetchProjects | components/company/VotingPanel.tsx:90-164 | the projects become the collected reads of the assigned ids; the guard is untouched |
| VotingPanel.Panel.OnConfirmed | components/company/VotingPanel.tsx:325-333 | confirmation re-fetches the projects and releases the guard |
| VotingPanel.Panel.OnTransactionError | components/company/VotingPanel.tsx:335-342 | a transaction error releases the guard and keeps the projects |
| RegisterProject.Pipeline | components/dashboard/RegisterProject.tsx:27-81 | requests go metrics, score, persist, each only after the previous succeeded; the run registers exactly when all three succeed; otherwise it names the first failing step with its error or default message |
| RegisterProject.PersistInput | components/dashboard/RegisterProject.tsx:61-70 | the persist request carries no AI score |
| RegisterProject.PersistedRow | components/dashboard/RegisterProject.tsx:59-75 | the stored row has impact score 0 whatever the AI step computed, and exists exactly when address, name and URL are non-empty |
| RegisterProject.RegisterForm.constructor | components/dashboard/RegisterProject.tsx:10-15 | not loading, empty form, no requests |
| RegisterProject.RegisterForm.HandleSubmit | components/dashboard/RegisterProject.tsx:17-85 | without a wallet nothing changes; otherwise the requests and outcome are those of `Pipeline`, loading ends, and the form is cleared only on success |
| ProjectProposal.ParseUnits | components/dashboard/ProjectProposal.tsx:29 | whole-number text is scaled by 10^decimals; empty text gives 0; text holding anything but digits and points never converts |
| ProjectProposal.WholeAmountScaled | components/dashboard/ProjectProposal.tsx:29 | the decimal text of any whole amount n converts to exactly n·10^decimals |
| ProjectProposal.FractionBelowOneUnit | components/dashboard/ProjectProposal.tsx:29 | "w.f" (either part possibly empty) converts to a value in [w units, w+1 units) |
| ProjectProposal.ProposalFor | components/dashboard/ProjectProposal.tsx:20-53 | any empty field stops the proposal; otherwise a failed conversion stops it; otherwise one `proposeProject` call with the fields and the converted amount |
| ProjectProposal.SubmitDisabled | components/dashboard/ProjectProposal.tsx:134 | submit is disabled exactly while pending or confirming |
| ProjectProposal.ProposalForm.constructor | components/dashboard/ProjectProposal.tsx:9-12 | all fields empty and no writes |
| ProjectProposal.ProposalForm.HandleProposeProject | components/dashboard/ProjectProposal.tsx:20-53 | a write is recorded exactly when `ProposalFor` yields one and the write does not throw; the fields are never changed |
| ProjectProposal.ProposalForm.OnConfirmed | components/dashboard/ProjectProposal.tsx:55-63 | confirmation empties all four fields |
| AdminPanel.IsOwner | components/admin/AdminPanel.tsx:29-30 | with no configured owner everyone is admitted; otherwise exactly the addresses equal to the owner up to letter case |
| AdminPanel.OwnerTestIgnoresCase | components/admin/AdminPanel.tsx:29-30 | changing the case of letters in the address never changes the verdict |
| AdminPanel.ViewFor | components/admin/AdminPanel.tsx:40-79 | loading first, then connect-wallet, then access denied; the panel exactly when loaded, connected and owner |
| AdminPanel.AdminGate.constructor | components/admin/AdminPanel.tsx:13-14 | not owner, loading |
| AdminPanel.AdminGate.CheckOwnership | components/admin/AdminPanel.tsx:20-38 | loading always ends; without an address the verdict is kept; an error denies; otherwise the verdict is `IsOwner` |
| ProjectLeaderboard.RankColor | components/dashboard/ProjectLeaderboard.tsx:41-46 | positions from the fourth on share the blue-purple gradient; the first three do not |
| ProjectLeaderboard.TopThreeColorsDistinct | components/dashboard/ProjectLeaderboard.tsx:41-46 | the first three positions have three different gradients |
| ProjectLeaderboard.RankIconFor | components/dashboard/ProjectLeaderboard.tsx:48-51 | a trophy exactly for the first three positions |
| ProjectLeaderboard.BadgeFor | components/dashboard/ProjectLeaderboard.tsx:88 | the first three show the trophy, later positions their 1-based rank |
| ProjectLeaderboard.Rendered | components/dashboard/ProjectLeaderboard.tsx:77-89 | one entry per project, in the order served, with that position's colour and badge |
| ProjectLeaderboard.AnswerOf | app/api/projects/route.ts:14-25 | a listing answers success with its projects; a failure answers no success |
| ProjectLeaderboard.Leaderboard.constructor | components/dashboard/ProjectLeaderboard.tsx:20-21 | no projects, loading |
| ProjectLeaderboard.Leaderboard.FetchProjects | components/dashboard/ProjectLeaderboard.tsx:27-39 | a successful answer replaces the list (a missing list empties it); anything else keeps it; loading always ends |
| ProjectLeaderboard.ServedListingIsRanked | components/dashboard/ProjectLeaderboard.tsx:77-88 | fed from the project endpoint, every shown position is active and scores at least as high as every later one, so trophies go to the top scores |

## Left out

- Network, ledger, database, wallet and AI calls are parameters, not code. Their answers are
  given to each handler: `Ledger`, `Store`, `Answer`, `ReadResponse`, `MetricsResponse`,
  `writeThrows`, `lookupThrows`.
- Logging, toasts and `alert` messages are not modelled. They change no state.
- React effects run when the model's methods are called. Batching and re-render timing are not
  modelled. `handleVote` reads its state fields directly, not a stale closure.
- `analyzeProject` is modelled only for its metric defaults (`MetricsFor`). The AI request, the
  analysis map and the expanded card are left out, because they depend on the AI endpoint.
  That endpoint (`app/api/ai/score/route.ts`) is not part of this model.
- The outer `catch` of `fetchProjects` in the voting panel is not modelled. Nothing inside its
  `try` throws once each read catches its own errors.
- Common.ParseIntPrefix: whitespace and hexadecimal forms of `parseInt` are not modelled. Only
  an optional sign and decimal digits are; trailing text after the digits is ignored, as in
  JavaScript.
- Common.ParseInteger: `BigInt` on text is modelled for an optional '-' and digits only. Text with
  surrounding whitespace, a '+' sign, or a `0x`, `0o` or `0b` prefix counts as a conversion
  failure, although `BigInt` accepts all of these.
- ProjectProposal.ParseUnits: only unsigned decimal text with at most 18 fractional digits is
  exact. Longer fractions, which `parseUnits` rounds, and a leading '-', which it accepts, count
  as a conversion failure in the model.
- JavaScript numbers are unbounded integers. The precision loss of `Number(bigint)` on ids and
  vote counts above 2^53 is not modelled. Only the score given to the colour bands is a `real`.
- ProjectsRoute.ImpactScoreOf: stored impact scores are integers. A fractional `aiScore` (or a
  NaN one, which `|| 0` turns into 0) is not modelled.
- AdminPanel.LowerChar: `toLowerCase` lowers every Unicode letter, but the model lowers only
  A-Z. That is exact for hexadecimal addresses, which hold no other letters.
- VotingPanel.Panel.HandleVote: the `writeThrows` flag stands for every synchronous throw in the
  handler's `try`. That includes `BigInt(projectId)` on a NaN id (`IdOf` of a missing id); the
  model does not derive that throw from the id.
- EventsRoute.KindOf: the signature table is looked up as a plain map. JavaScript's inherited
  object keys (a name such as "constructor") are not modelled. A non-string event name is not
  modelled.
- A request body that is not valid JSON (`request.json()` throwing) is not modelled for either
  endpoint.
- ProjectsRoute.OrderByScoreDesc: rows of equal score keep storage order. The database's order
  for ties is unspecified.
- The rendered markup, icons, animation and formatting (`formatUnits`, `formatAddress`) are left
  out. The model keeps only the data and the choices the markup depends on.
- The other routes and components are not part of this model. That covers the GitHub fetch,
  contract read, treasury, funding history, landing pages and providers.
