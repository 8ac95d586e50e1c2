# HormuzChain, verified

This project models the replicated ledger of HormuzChain, its round-robin Proof-of-Authority consensus, the
payment-gated dispatch of drones, the priority queue of occurrences, the ring failover of sectors, the drone's mission
phases and the monitor's WebSocket frame codec, and proves what they keep.

`dafny verify dfyconfig.toml` checks everything.

## How it is built

| file | what it holds |
|---|---|
| `Models.dfy`, `Texts.dfy` | the records of `internal/models`, splitting, joining, printing and reading of texts |
| `Hashing.dfy` | the texts that `block.go` hashes and signs, and when a digest determines what was hashed |
| `Ledger.dfy`, `Chains.dfy` | `chain.go` as functions, and as the object `Blockchain` that rebuilds its maps in place |
| `Accounting.dfy`, `Mempool.dfy` | conservation and solvency, what admission guarantees |
| `Admission.dfy`, `Registers.dfy` | exactly what is admitted and accepted, and what the registers say about the history of a chain |
| `TipHash.dfy`, `Effects.dfy` | what a tip hash says about a chain, and which colons change what a transaction does |
| `Votes.dfy` | `consensus.go`: proposer, splitting and counting of votes |
| `Protocol.dfy` | the broker's handlers as atomic steps, four brokers, a network, events and runs |
| `Agreement.dfy`, `Runs.dfy` | the invariant of the consensus, every step keeps it, the theorems over runs |
| `Handlers.dfy`, `Origins.dfy`, `Deliveries.dfy` | exactly when each consensus handler acts, which event sends which message, and what each event and message achieves |
| `Provenance.dfy` | where the blocks of a run come from: a mempool, a proposal and two dry runs |
| `Progress.dfy` | what a round achieves when its messages arrive |
| `Uniqueness.dfy` | no transaction is confirmed twice while nobody adopts a chain |
| `Scenarios.dfy`, `Witnesses.dfy` | rounds as lists of events, and runs that show the limits of the code |
| `Payments.dfy`, `Missions.dfy` | payment gating and one mission at a time, over runs |
| `Desks.dfy`, `Pending.dfy` | what each handler of occurrences and drones leaves, exactly, and that no paid escort is forgotten |
| `Authority.dfy` | what signatures and releases guarantee about payer, payee and amount |
| `Brokers.dfy` | the object `Broker`, whose methods change maps, queue and chain in place as `Protocol.dfy` says, and what the theorems over runs say about such objects |
| `Heap.dfy`, `Fila.dfy`, `Starvation.dfy` | the binary heap on sequences, the queue object with back-indices, ageing |
| `Failover.dfy`, `Readings.dfy` | ring failover, and who opens an occurrence for a reading |
| `Drone.dfy`, `WebSocket.dfy` | mission phases, frames |

Objects that the program updates in place are classes; each method equals a function of the old state, and the
theorems are lemmas about these functions and about runs of them. A run is a sequence of events from four brokers on
the genesis block. Messages once sent may be delivered never, late, repeatedly, in any order and to any broker, the
sender among them; a broker may restart from its saved chain at any moment. `Protocol.HistoryExists` says that any
list of events is a run. A digest is the content that was hashed and a signature is one letter made by one key over
one message, so no assumption about SHA-256 or ECDSA is needed. Amounts are whole micro-ELIS, the precision that `%f`
hashes.

## What the proofs found

* Votes are remembered by digest, so a validator may back two blocks of one height
  (`Progress.VotersMayApproveTwice`, and as a run `Witnesses.TwoApprovalsInARun`).
  Agreement does not come from quorums but from the one proposer of a height, whose own chain takes one block there.
* `VerifyBlockVotes` announces in a comment that no validator is counted twice, but it counts distinct texts: three
  signatures of one validator pass (`Votes.OneVoterThreeParts`). The count is one of validators exactly when no two
  valid parts carry one name (`Votes.CountsValidatorsExactly`), which holds in every run because `handleBlockVote` takes
  one vote of each voter (`Runs.CountedOnceOverRuns`). The same function's comment shows a list separated by commas;
  the code splits at semicolons.
* The text that `HashTx` hashes is joined with colons. It determines the transaction exactly when sender, receiver,
  vessel, occurrence and payload hold no colon (`Hashing.HashTextDetermines`), and a tip hash determines a chain exactly
  when all its transactions above genesis are like that (`TipHash.TipHashFixesExactly`). One colon in the payload of a
  signed vessel registration gives two accepted chains with one tip hash and two registers of vessels
  (`TipHash.ColonBreaksTipHash`). Not every colon matters for the state: mission logs never do
  (`Effects.LogsAreFixed`), registrations always (`Effects.RegistrationFixedExactly`), so a colon in the name of a
  company allows another name under the same hash, and payments exactly when an address holds one or a piece of the
  details reads as an amount (`Effects.MoneyFixedExactly`).
* While nobody adopts a chain no transaction is confirmed twice (`Uniqueness.NeverConfirmedTwice`). One adoption is
  enough for it, because the mempool keeps what the adopted chain confirms (`Witnesses.AdoptionConfirmsTwice`).
* No check looks at the sign of an amount. A chain stays solvent exactly when every credit is covered
  (`Accounting.ReachedSolvency`), which amounts of at least zero ensure; a negative one is admitted on the genesis
  chain, its block is accepted, and an address is then negative (`Accounting.NegativeAmountBreaksSolvency`).
* A signature fixes payee and amount exactly for the kinds signed over their hash (`Authority.TermsCoveredExactly`): a
  mint carries none, and a payment for an occurrence is signed over the occurrence id. A release depends on that id
  alone (`Authority.ReleasesExactly`, `Authority.ReleaseIgnoresTerms`): in `Witnesses.StrangerReleases` the holder of
  any key pays 0 for a vessel of Maersk and a drone is sent. What a release guarantees is a payer whose key signed the
  id and whose balance, when its chain is replayed up to the payment, held the amount (`Authority.PaymentIsSigned`).
* No paid escort is forgotten: an occurrence that a broker knows as paid is queued there or was dispatched and has not
  been reopened since (`Pending.PaidIsNeverForgotten`). A command that could not be written leaves the same ids queued,
  but the drone stays recorded as `DESPACHADO` until it reports (`Desks.DispatchExactly`).
* Every block above genesis was dry run by two brokers besides its validator on exactly the chain below it
  (`Provenance.BlocksWereDryRun`); the validator itself signs its proposal without one (`Handlers.ProposesExactly`).
* A drone whose mission is aborted stays in `RETORNANDO` for ever (`Drone.AbortStrands`); `Drone.AvailableAgain` says
  exactly which drones can serve again.
* `wsFrame` writes four zero bytes above a 32-bit length: the round trip holds exactly below 2^32 bytes
  (`WebSocket.FrameRoundTrip`).
* The comment at the head of `fila.go` lets ageing raise an occurrence to level 5 and breaks ties by age alone. The code
  stops at `CriticidadeAlta`, which is 2, and compares Lamport times before ages; the model follows the code.
* `GetProposer` would index out of range on a negative height; the model answers with no proposer. In runs it is never
  asked about one (`Runs.ProposersExist`, `Runs.HeightsAskedByTicks`).

## Model

| member | source | states |
|---|---|---|
| Runs.AgreementOverRuns | code/cmd/broker/broker_main.go:1042-1202 | whatever any two brokers hold at a height, at any two moments of a run, is the same block |
| Runs.NeverShrinks | code/cmd/broker/broker_main.go:1688-1698 | every chain is a prefix of itself after any further events, adoptions and restarts among them |
| Runs.CertifiedOverRuns | code/cmd/broker/broker_main.go:1140-1187 | every block above genesis has the validator of its height and a signature text that splits into at least three valid votes of different validators, each of whom approved it on exactly the chain below it |
| Provenance.BlocksWereDryRun | code/cmd/broker/broker_main.go:1091-1138 | in every run each block above genesis was dry run at earlier moments by at least two brokers other than its validator, each on exactly the chain below the block, with every transaction passing after the ones before it |
| Provenance.BlocksWereProposed | code/cmd/broker/broker_main.go:1042-1089 | and its validator proposed it, under the same digest, at a tick on its turn from the first pending transactions: no block above genesis is empty or holds more than five |
| Provenance.ApprovalHasCause | code/cmd/broker/broker_main.go:1042-1138 | every approval on record was given at one earlier moment by that broker on the chain recorded with it, to a block of its own tick or to a proposal that fits that chain |
| Origins.MessageOrigin | code/cmd/broker/broker_main.go:1042-1202 | which event a message can come from, for every message of the net, and that only ticks and proposals lead to approvals |
| Deliveries.EventAchieves | code/cmd/broker/broker_main.go:1482-1711 | what every event, and the arrival of every message, achieves in any state: the vote, block, record, flag, queue or message that others can rely on after it |
| Runs.SolvencyOverRuns | code/internal/blockchain/chain.go:341-398 | in every run, with amounts of at least zero, no address is negative after any prefix of any broker's chain |
| Runs.ChainsAreReached | code/internal/blockchain/chain.go:401-446 | every chain of every run is what accepted calls of AddBlock build from the genesis block, adopted chains too |
| Runs.SavedIsCurrent | code/internal/blockchain/chain.go:153-172 | the saved blocks are the current blocks in every reachable state, so a restart loses none |
| Runs.InvAlong | code/cmd/broker/broker_main.go:1042-1202 | the invariant of the consensus holds in every state of every run |
| Runs.GrowsAlong | code/cmd/broker/broker_main.go:1042-1202 | along a run every chain only grows at its end, and no message sent or approval given is forgotten by the history |
| Runs.StepKeeps | code/cmd/broker/broker_main.go:1482-1711 | every event keeps the invariant (each block, ballot and proposal in any chain, vote list or message fits the chain of its height's proposer) and only extends chains |
| Runs.OnVoteKeeps | code/cmd/broker/broker_main.go:1140-1187 | a filed vote or the proposer's own commit keeps the invariant |
| Runs.OnCommitKeeps | code/cmd/broker/broker_main.go:1189-1202 | a received commit that is added is the proposer's own block of that height |
| Runs.OnChainKeeps | code/cmd/broker/broker_main.go:1688-1698 | an adopted longer chain continues the own one and has all its qualities |
| Runs.OnProposalKeeps | code/cmd/broker/broker_main.go:1091-1138 | an approval is given on a chain that ends just below the block and keeps the invariant |
| Runs.ProposeKeeps | code/cmd/broker/broker_main.go:1042-1089 | a proposal or re-proposal keeps the invariant |
| Agreement.CanonicalAgree | code/cmd/broker/broker_main.go:1688-1698 | of two chains whose blocks are all recorded by their proposers one is a prefix of the other |
| Agreement.CanonicalIsPrefix | code/cmd/broker/broker_main.go:1677-1686 | a chain in flight is a prefix of the chain of some broker |
| Progress.RoundCommits | code/cmd/broker/broker_main.go:1042-1202 | a proposer with pending transactions and two validators on its chain commit a block of the first pending ones, and every broker on that chain takes it |
| Handlers.ProposesExactly | code/cmd/broker/broker_main.go:1042-1089 | a tick proposes if and only if it is the broker's turn and something is pending: one block on the own tip of the first pending transactions, five at most, with the own vote on file; otherwise it does nothing |
| Handlers.VotesExactly | code/cmd/broker/broker_main.go:1091-1138 | a proposal gets a vote if and only if it has the validator of its height and that validator's seal, is the next block of the voter's chain, every transaction passes the dry run there, and its hash was not voted for; otherwise it leaves no trace |
| Handlers.CommitsExactly | code/cmd/broker/broker_main.go:1140-1187 | a vote counts if and only if the block is the broker's own and the voter has none on file, and commits if and only if it is at least the third and the block still fits; then the block is on the saved chain and its votes are gone, otherwise the vote is filed and nothing else changes |
| Handlers.TakesExactly | code/cmd/broker/broker_main.go:1189-1202 | a commit is taken if and only if three different parts of its signature are valid and it fits under its own hash; otherwise nothing changes |
| Handlers.FirstLongestWins | code/cmd/broker/broker_main.go:1688-1698 | after any list of chains a broker is on the first longest of those with its genesis hash, its own included, with mempool and votes unchanged |
| Handlers.AddsExactly | code/internal/blockchain/chain.go:401-446 | AddBlock takes a block if and only if it continues the chain, carries its own hash and each transaction passes after the ones before it |
| Handlers.BlockErrorNamesFault | code/internal/blockchain/chain.go:401-446 | an error of AddBlock is a fault that the block has, and that of a transaction is the first one's that fails |
| Witnesses.RoundFromGenesis | code/cmd/broker/broker_main.go:1042-1202 | a list of seven events from the initial state in which a registration submitted to B2 is proposed, approved by B1 and B3, committed by B2 and taken by B1 |
| Scenarios.Round | code/cmd/broker/broker_main.go:1042-1202 | in any history, when a proposer is ready and two validators are on its chain, five events commit its block and change nothing else |
| Runs.ProposersExist | code/internal/blockchain/consensus.go:10-15 | in every run GetProposer is asked by proposals only about heights of at least 1, and answers with a validator |
| Runs.HeightsAskedByTicks | code/internal/blockchain/consensus.go:10-15 | the same for the ticks of the consensus loop |
| Progress.VotersMayApproveTwice | code/cmd/broker/broker_main.go:1115-1119 | a validator approves a re-proposal at the same height on the same chain as well |
| Witnesses.TwoApprovalsInARun | code/cmd/broker/broker_main.go:1115-1119 | a list of five events after which the approvals of one validator for two blocks of one height are both on record |
| Payments.PaymentGating | code/cmd/broker/broker_main.go:813-897 | in every run each occurrence in a queue or drone record was opened as public or has a TRANSFER with its id in some broker's chain |
| Payments.PaymentGatingInFlight | code/cmd/broker/broker_main.go:859-895 | the same for every command, dispatch notice and drone record ever sent, those of keepalives and global synchronisation too |
| Payments.ReleasedBeforeCommand | code/cmd/broker/broker_main.go:813-897 | when a drone is commanded its occurrence was released before that event |
| Payments.OnlyDispatchCommands | code/cmd/broker/broker_main.go:813-897 | only a dispatch of the head of the queue commands a drone |
| Payments.PublicMeansUnregistered | code/cmd/broker/broker_main.go:440-497 | an occurrence is opened as public only for a vessel that the broker's chain does not register |
| Payments.PayBlockOk | code/cmd/broker/broker_main.go:1204-1226 | processing a block queues only occurrences that its transfers pay for |
| Payments.LoseDroneOk | code/cmd/broker/broker_main.go:749-765 | re-queueing after a lost drone queues no unreleased occurrence |
| Pending.PaidIsNeverForgotten | code/cmd/broker/broker_main.go:749-897 | in every run an occurrence that a broker knows as PAGO is in its queue, or was dispatched at an earlier moment, by it or by another that told it, and has not been reopened there since |
| Pending.AttendedSince | code/cmd/broker/broker_main.go:813-897 | a set flag goes back to a dispatch of the occurrence by that broker, or the notice of another's, with the flag set ever since |
| Desks.LostIsQueuedAgain | code/cmd/broker/broker_main.go:741-765 | a report of ABATIDO, a notice of loss and the end of a connection each put the known occurrence of the drone back in the queue with a clear flag |
| Desks.LossReopens | code/cmd/broker/broker_main.go:749-765 | what a loss changes: the flag of the drone's occurrence is clear and, if known, it is in the queue with one entry at its own level; no other flag, record or occurrence |
| Desks.PaysExactly | code/cmd/broker/broker_main.go:1204-1226 | after a block every known occurrence that one of its transfers names is PAGO, unattended and queued, and every other occurrence, flag and queued id is as it was |
| Desks.OpensAsRead | code/cmd/broker/broker_main.go:403-497 | what a reading opens, with every field: waiting for its owner and not queued for a registered vessel, public and queued at its own level for any other, and nothing if it is not the broker's, names no vessel or has no level |
| Desks.RequestIsRecorded | code/cmd/broker/broker_main.go:1624-1637 | a request is recorded unless it has no level, and queued exactly if it names no vessel and is not attended |
| Desks.DispatchExactly | code/cmd/broker/broker_main.go:813-897 | the four outcomes of a dispatch: an attended head is dropped; without a drone nothing happens; a written command takes the head off, sets only its flag and is announced; an unwritten one leaves the same ids queued and the flag clear |
| Desks.PicksAvailable | code/cmd/broker/broker_main.go:827-848 | only a local drone recorded as DISPONIVEL is commanded, and it cannot be picked again until its record changes |
| Desks.DispatchIsNoted | code/cmd/broker/broker_main.go:1638-1648 | the notice of another's dispatch removes the id from the queue, sets only its flag and replaces the drone's record |
| Desks.NewestWins | code/cmd/broker/broker_main.go:1608-1618 | a record received replaces exactly an older one or none |
| Desks.SyncsCommute | code/cmd/broker/broker_main.go:1608-1618 | records may arrive in any order and repeatedly with the same outcome, but for two of one drone with one time |
| Desks.ReportExactly | code/cmd/broker/broker_main.go:669-743 | the record and messages after a state report: an occurrence is named until the drone is available, and its end is announced exactly then |
| Desks.JoinsAndLeaves | code/cmd/broker/broker_main.go:575-637 | a drone that registers can be picked if it is available, one whose connection ended cannot, and no other drone is affected |
| Desks.LogsExactly | code/cmd/broker/broker_main.go:699-738 | a mission log is written exactly for the end of an escort of a known occurrence with a vessel, is signed with the broker's key, and is admitted unless already pending or confirmed |
| Authority.PaymentIsSigned | code/cmd/broker/broker_main.go:1204-1226 | in every run a released occurrence that nobody opened as public has a transfer at a place in some broker's chain whose payer's key signed its id, and whose amount was in the payer's balance in the state that the transfer met in that chain |
| Authority.TransferWasVetted | code/internal/blockchain/chain.go:341-446 | a transfer in a reached chain lies above genesis and passed the dry run in the state that it met there |
| Witnesses.StrangerReleases | code/cmd/broker/broker_main.go:1204-1226 | a history in which a drone is sent to a registered company's vessel after a payment of 0 by the holder of any other key |
| Authority.ReleasesExactly | code/cmd/broker/broker_main.go:1204-1226 | a known unpaid occurrence becomes PAGO if and only if the transaction is a TRANSFER with its id |
| Authority.ReleaseIgnoresTerms | code/cmd/broker/broker_main.go:1204-1226 | payer, payee and amount change nothing in a release |
| Authority.DebitIsAuthorised | code/internal/blockchain/block.go:49-58 | an accepted debit was signed with the key of the payer's address, over the occurrence id or the hash, and lay within its balance |
| Authority.TermsCoveredExactly | code/internal/blockchain/block.go:49-58 | the signature rules out any other payee or amount if and only if the transaction is neither a mint nor a transfer for an occurrence |
| Missions.OneMissionAtATime | code/cmd/broker/broker_main.go:813-897 | between two dispatches of one occurrence by one broker lies a step of that broker that reopened it: payment on chain, loss of the drone that carried it, or restart |
| Missions.DispatchesIff | code/cmd/broker/broker_main.go:859-895 | a dispatch writes the command for an occurrence exactly when it heads the queue unattended, a local drone is available and the write succeeds |
| Missions.LastClearing | code/cmd/broker/broker_main.go:813-897 | a flag set at one moment and clear at a later one was cleared by a step of that broker in between that reopened the occurrence |
| Missions.ClearingReopens | code/cmd/broker/broker_main.go:749-765 | no other event clears the flag of an attended occurrence |
| Missions.TryDispatchClearsNone | code/cmd/broker/broker_main.go:819-825 | a dispatch, failed or not, never touches an occurrence already attended |
| Drone.OneMission | code/cmd/drone/drone_main.go:223-308 | under any interleaving a drone has at most one mission, none while DISPONIVEL, and each phase only its states |
| Drone.MissionCourse | code/cmd/drone/drone_main.go:223-294 | an undisturbed mission passes through DESPACHADO, EM_MISSAO and RETORNANDO with its occurrence and leaves the drone exactly as before |
| Drone.ShotDown | code/cmd/drone/drone_main.go:251-262 | a drone is shot down only on its way out, and then nothing changes it any more |
| Drone.AvailableAgain | code/cmd/drone/drone_main.go:223-308 | a drone can become available again exactly when it is neither shot down nor stranded |
| Drone.AbortStrands | code/cmd/drone/drone_main.go:296-308 | after an abort that takes effect the drone is never available again |
| Drone.Processo.IniciarMissao | code/cmd/drone/drone_main.go:223-237 | follows the step function and is accepted exactly from DISPONIVEL |
| Drone.Processo.AcordarMissao | code/cmd/drone/drone_main.go:239-294 | the locked sections after each sleep follow the step function |
| Drone.Processo.AbortarMissao | code/cmd/drone/drone_main.go:296-308 | follows the step function |
| Accounting.Conservation | code/internal/blockchain/chain.go:175-213 | for any blocks, replaced chains too, all balances add up to all minted amounts |
| Accounting.ReachedSolvency | code/internal/blockchain/chain.go:341-398 | no address of a reached chain is negative after any prefix exactly when every credit is covered in the state it meets |
| Accounting.SolvencyOfEveryPrefix | code/internal/blockchain/chain.go:369-379 | with amounts of at least zero a reached chain is solvent after every prefix of its transactions, inside blocks and with self-transfers |
| Accounting.StepSolvency | code/internal/blockchain/chain.go:369-379 | one accepted step keeps solvency exactly when its credit is covered |
| Accounting.ApplyBalance | code/internal/blockchain/chain.go:188-213 | a transaction moves exactly its amount from payer to payee and nothing for anybody else; a self-transfer moves nothing |
| Accounting.NegativeAmountBreaksSolvency | code/internal/blockchain/chain.go:259-446 | on the solvent genesis chain a payment of a negative amount is admitted, its block is accepted, and the reached chain is insolvent |
| Admission.AdmitsExactly | code/internal/blockchain/chain.go:259-332 | a transaction enters the mempool, as its last entry, if and only if its hash is new there and in the chain, it is authorised and well-formed, and the balance covers a debit together with the sender's own pending amounts; otherwise nothing changes |
| Admission.SpentAppend | code/internal/blockchain/chain.go:297-303 | a pending amount counts against its own sender whatever its kind, and against nobody else |
| Admission.OthersDoNotCount | code/internal/blockchain/chain.go:297-303 | any entries of other senders leave a sender's pending amount as it is |
| Admission.VetExactly | code/internal/blockchain/chain.go:341-398 | a step of the dry run passes if and only if the transaction is authorised by the key of its sender, well-formed, and a debit lies within the payer's balance |
| Admission.ErrorNamesFault | code/internal/blockchain/chain.go:259-332 | each error of AddTxToMempool is a fault that the transaction has, and all but two of them say that its id is new |
| Admission.VetErrorNamesFault | code/internal/blockchain/chain.go:341-398 | the same for each error of the dry run |
| Registers.OwnerIsLatest | code/internal/blockchain/chain.go:192-198 | a vessel is registered to a company if and only if the last transaction about it, registration or loss, is a registration by that company |
| Registers.NameIsLatest | code/internal/blockchain/chain.go:192-194 | a company has a name and a key if and only if they are those of its last registration |
| Registers.RegistersOverRuns | code/internal/blockchain/chain.go:341-398 | in every run every registered vessel has an id and a registered company, and every company a name and the address of its key |
| Registers.CompaniesAtGenesis | code/internal/blockchain/chain.go:73-116 | at genesis the address of a seed holds 1000 ELIS if it is one of the five companies and nothing otherwise |
| Registers.GenesisIs | code/internal/blockchain/chain.go:73-116 | the genesis block: index, validator, printed time, zero hash, ten mints and registrations, its own hash |
| Ledger.DryRunEqualsCommit | code/internal/blockchain/chain.go:341-398 | an accepted block leaves the temporary maps equal to the state rebuilt from scratch with the block appended |
| Ledger.RebuildIsIncremental | code/internal/blockchain/chain.go:175-186 | a full replay of the longer chain equals folding the new block onto the old state |
| Ledger.VetAllOk | code/internal/blockchain/chain.go:357-398 | a list is accepted exactly when each transaction is after the effects of those before it |
| TipHash.TipHashFixesHashes | code/internal/blockchain/block.go:20-29 | linked chains with equal tip hash have equal length and the same hash at every height |
| TipHash.TipHashFixesChain | code/internal/blockchain/block.go:12-29 | any linked chain with the tip hash of a colon-free chain agrees with it on every hashed field at every height |
| TipHash.TipHashFixesExactly | code/internal/blockchain/block.go:12-29 | a linked chain is determined so by its tip hash if and only if none of its transactions above genesis holds a colon in a free text |
| TipHash.TipHashDeterminesState | code/internal/blockchain/chain.go:341-424 | any linked chain with the tip hash of a colon-free chain holds the same balances, companies and vessels and gives the same verdict on every block |
| TipHash.ColonBreaksTipHash | code/internal/blockchain/block.go:12-17 | two chains accepted by AddBlock from genesis have one tip hash and register different vessels, the only colon of the first being in a payload |
| Effects.TipHashDeterminesEffects | code/internal/blockchain/chain.go:341-424 | any linked chain with the tip hash of a chain whose transactions above genesis have fixed effects holds the same balances, companies and vessels and gives the same verdicts |
| Effects.RegistrationFixedExactly | code/internal/blockchain/chain.go:192-196 | what a registration of a company or vessel does is fixed by its hashed text if and only if it holds no colon |
| Effects.LossFixedExactly | code/internal/blockchain/chain.go:197-198 | the same for the loss of a vessel with colon-free addresses |
| Effects.MoneyFixedExactly | code/internal/blockchain/chain.go:190-209 | what a mint or payment does is fixed if and only if its addresses hold no colon and no piece of its details reads as an amount with three pieces behind it |
| Effects.LogsAreFixed | code/internal/blockchain/chain.go:210-211 | a mission log does nothing, whatever has its hashed text |
| TipHash.ColonAlwaysAmbiguous | code/internal/blockchain/block.go:12-29 | every linked chain with a colon in a free text above genesis has a twin with all the same hashes and other fields |
| Hashing.HashTextDetermines | code/internal/blockchain/block.go:12-17 | a transaction is determined by its hashed text among all transactions if and only if none of its five free texts holds a colon |
| Hashing.TxContentInjective | code/internal/blockchain/block.go:12-17 | any transaction with the hashed text of a colon-free one agrees with it on every hashed field |
| Hashing.TxContentAmbiguous | code/internal/blockchain/block.go:12-17 | every other transaction shares its hashed text with a different one |
| Hashing.ColonsOfContent | code/internal/blockchain/block.go:13-14 | the hashed text holds eight colons and those of the five free texts, amounts and numbers adding none |
| Hashing.ParseOfAmountText | code/internal/blockchain/block.go:13-14 | the `%f` text of an amount reads back as that amount |
| Hashing.HashTextFields | code/internal/blockchain/block.go:12-17 | the hashed text of a transaction is its nine printed fields, in this order, joined with colons |
| Hashing.HashTextExample | code/internal/blockchain/block.go:12-17 | one such text, letter by letter |
| Hashing.BlockTextFields | code/internal/blockchain/block.go:20-29 | the hashed text of a block is index, time, joined hashes, previous hash and validator, in this order, joined with colons |
| Hashing.BlockContentInjective | code/internal/blockchain/block.go:20-29 | for four-digit years and 64-character hashes the text hashed for a block determines index, second, transaction hashes, previous hash and validator |
| Hashing.ConcatInjective | code/internal/blockchain/block.go:21-24 | the joined 64-character transaction hashes determine the list of hashes |
| Hashing.SecondTextInjective | code/internal/blockchain/block.go:25-26 | the printed time determines the second |
| Hashing.BuildBlockContent | code/internal/blockchain/block.go:20-26 | the accumulating loop builds the text about which the injectivity is proved |
| Mempool.RunKeepsIds | code/internal/blockchain/chain.go:259-332 | through any submissions and offered blocks, mempool ids stay pairwise distinct, equal to the hash of their transaction and absent from the chain |
| Mempool.WithoutRemovesExactly | code/internal/blockchain/chain.go:428-442 | exactly the confirmed ids leave the mempool and the rest keep their order |
| Mempool.AdmitKeepsCovered | code/internal/blockchain/chain.go:295-309 | admission keeps each sender's pending debits within its balance |
| Mempool.PrefixPasses | code/cmd/broker/broker_main.go:1052-1056 | any prefix of such a mempool passes block validation |
| Mempool.ProposalAccepted | code/cmd/broker/broker_main.go:1060-1067 | AddBlock takes the block proposed over such a prefix |
| Mempool.CommitOwnPrefix | code/internal/blockchain/chain.go:401-446 | committing it removes just that prefix and keeps every guarantee, solvency too |
| Mempool.RunOwnStaysReady | code/cmd/broker/broker_main.go:1042-1089 | a broker on its own blocks always has a proposable mempool and never confirms an id twice |
| Uniqueness.NeverConfirmedTwice | code/cmd/broker/broker_main.go:1042-1202 | in every run without adoptions no chain holds an id twice, and every mempool holds genuine ids, pairwise distinct and absent from its chain |
| Uniqueness.StepUnique | code/cmd/broker/broker_main.go:1042-1202 | every event but an adoption keeps that, with the blocks proposed and voted on repeating no id of the chain below them |
| Witnesses.AdoptionConfirmsTwice | code/cmd/broker/broker_main.go:1688-1698 | a history with one adoption after which one transaction stands in two blocks of a chain |
| Mempool.GenesisReady | code/internal/blockchain/chain.go:73-116 | the genesis chain has all these guarantees |
| Mempool.AdmitKeepsIds | code/internal/blockchain/chain.go:259-332 | one submission keeps ids distinct and fresh |
| Mempool.ExtendKeepsIds | code/internal/blockchain/chain.go:401-446 | one block of anybody keeps ids distinct and fresh |
| Chains.Blockchain.Genesis | code/internal/blockchain/chain.go:73-116 | the loop over the companies builds the genesis block and the derived maps are its replay |
| Chains.Blockchain.Load | code/internal/blockchain/chain.go:119-150 | any loaded chain has the saved blocks and mempool and freshly derived maps |
| Chains.Blockchain.RebuildState | code/internal/blockchain/chain.go:175-186 | the maps become the replay of all blocks |
| Chains.Blockchain.ApplyTx | code/internal/blockchain/chain.go:188-213 | the maps change as the state transition says |
| Chains.Blockchain.AddTxToMempool | code/internal/blockchain/chain.go:259-332 | the right error or admission, and a refused transaction changes nothing |
| Chains.Blockchain.SpentInPool | code/internal/blockchain/chain.go:297-303 | the sum of all pending amounts of one sender |
| Chains.Blockchain.InBlocks | code/internal/blockchain/chain.go:275-281 | whether an id is confirmed anywhere in the chain |
| Chains.Blockchain.ValidateBlockTransactions | code/internal/blockchain/chain.go:335-398 | the first error of the dry run, computed on temporary maps only |
| Chains.Blockchain.AddBlock | code/internal/blockchain/chain.go:401-446 | the right error with nothing changed, or the block appended, mempool pruned and maps rebuilt |
| Chains.Blockchain.Prune | code/internal/blockchain/chain.go:428-442 | the mempool without the confirmed ids |
| Chains.Blockchain.ReplaceChain | code/internal/blockchain/chain.go:476-481 | any given blocks with maps derived from them and the mempool left alone |
| Votes.VerifyBlockVotes | code/internal/blockchain/consensus.go:35-83 | accepts exactly blocks with three distinct valid parts, or the genesis validator at height 0 |
| Votes.AcceptsExactly | code/internal/blockchain/consensus.go:35-83 | above genesis a block is accepted if and only if three different parts of its signature are valid |
| Votes.ValidVoteExactly | code/internal/blockchain/consensus.go:46-79 | a part is valid for a validator if and only if it is its name, a colon and its one seal over the block's digest, a colon behind it allowed |
| Votes.TakingTurns | code/internal/blockchain/consensus.go:10-15 | B1, B2, B3 and B4 take turns by height, B1 at the heights divisible by four, and any four heights in a row have all of them |
| Votes.SplitText | code/internal/blockchain/consensus.go:85-117 | the pieces between separators without a last empty one |
| Votes.QuorumAccepted | code/internal/blockchain/consensus.go:35-83 | the joined votes of three different validators split back into those votes and are accepted |
| Votes.CountsValidatorsExactly | code/internal/blockchain/consensus.go:43-82 | the parts counted are as many as the validators that signed if and only if no two different valid parts carry one name |
| Votes.AcceptedByThree | code/internal/blockchain/consensus.go:35-83 | an accepted block without a repeated name carries valid signatures of three different validators |
| Votes.OneVoterThreeParts | code/internal/blockchain/consensus.go:62-78 | for every block three votes of one validator are accepted too |
| Runs.CountedOnceOverRuns | code/cmd/broker/broker_main.go:1140-1187 | in every run no two valid parts of a block's signature carry one name |
| Votes.PrefixIsVoter | code/cmd/broker/broker_main.go:1152-1156 | the prefix test on filed votes compares voters |
| Texts.SplitOfJoin | code/internal/blockchain/consensus.go:85-100 | pieces without the separator survive joining and splitting |
| Texts.JoinOfSplit | code/internal/blockchain/consensus.go:85-100 | joining the pieces restores the text but for one final separator |
| Heap.EnqueueKeeps | code/internal/fila/fila.go:85-101 | heap order and unique ids survive Enfileirar |
| Heap.EnqueueContents | code/internal/fila/fila.go:85-101 | a queued id changes nothing, any other adds exactly its entry |
| Heap.DequeueKeeps | code/internal/fila/fila.go:105-114 | Desenfileirar removes exactly the root, before which nothing comes, and keeps order and ids |
| Heap.RemoveIdKeeps | code/internal/fila/fila.go:129-140 | exactly the entry with the id leaves, and order and ids are kept |
| Heap.AgeKeeps | code/internal/fila/fila.go:174-195 | the contents after ageing are the aged entries, in heap order |
| Heap.DownOrders | code/internal/fila/fila.go:37-51 | sinking repairs a heap that is broken at one node |
| Heap.UpOrders | code/internal/fila/fila.go:37-58 | rising repairs a heap that is broken at one node |
| Heap.InitIsHeap | code/internal/fila/fila.go:192-194 | heapifying any array gives a heap |
| Heap.RootIsMinimum | code/internal/fila/fila.go:118-126 | no entry comes before the root under Less |
| Heap.MostUrgentFirst | code/internal/fila/fila.go:37-45 | the root has the highest priority, among those the smallest Lamport time, and among those the earliest creation |
| Heap.SnapshotIsSorted | code/internal/fila/fila.go:151-169 | popping a heapified copy lists the same entries in order |
| Fila.HeapInterno.Less | code/internal/fila/fila.go:37-45 | compares as the order of the proofs does |
| Fila.HeapInterno.Swap | code/internal/fila/fila.go:47-51 | exchanges two items and keeps every back-index equal to its position |
| Fila.HeapInterno.Push | code/internal/fila/fila.go:53-58 | appends and rises, back-indices kept |
| Fila.HeapInterno.CutLast | code/internal/fila/fila.go:60-68 | cuts off the last item, back-indices kept |
| Fila.HeapInterno.Pop | code/internal/fila/fila.go:105-114 | returns the root and leaves the popped heap, back-indices kept |
| Fila.HeapInterno.Remove | code/internal/fila/fila.go:129-140 | returns the item at an index and leaves the rest, back-indices kept |
| Fila.FilaPrioridade.Enfileirar | code/internal/fila/fila.go:85-101 | the new contents, heap order, back-indices and unique ids |
| Fila.FilaPrioridade.Desenfileirar | code/internal/fila/fila.go:105-114 | the root's occurrence or none, and the new contents |
| Fila.FilaPrioridade.Peek | code/internal/fila/fila.go:118-126 | the root's occurrence, before which none comes |
| Fila.FilaPrioridade.Remover | code/internal/fila/fila.go:129-140 | whether the id was queued, and the contents without it |
| Fila.FilaPrioridade.Snapshot | code/internal/fila/fila.go:151-169 | a sorted permutation of the queue, which stays untouched |
| Fila.FilaPrioridade.Envelhecer | code/internal/fila/fila.go:174-195 | every priority aged and the heap restored |
| Starvation.NoStarvation | code/internal/fila/fila.go:174-195 | an item that waited 30 s for each level it lacks and is then aged is returned within k + 1 dequeues, whatever later occurrences arrive or leave |
| Starvation.TakeServesOrAdvances | code/internal/fila/fila.go:36-45 | a dequeue serves the waiting item or shortens the line before it |
| Starvation.AgedExactly | code/internal/fila/fila.go:181-187 | an aged item is at the top if and only if it waited 30 s for each level it lacks, and otherwise stands as many levels up as it waited whole intervals, or down by a clock turned back |
| Starvation.FreshKeepsLevel | code/internal/fila/fila.go:181-187 | less than 30 s leaves an item at its own level |
| Starvation.LastAgeingCounts | code/internal/fila/fila.go:181-187 | ageing twice is ageing at the later time |
| Failover.UniqueHeir | code/cmd/broker/broker_main.go:325-401 | for every sector exactly one live broker answers when the views are accurate |
| Failover.ResponsibleIff | code/cmd/broker/broker_main.go:325-401 | a live broker answers exactly as owner, or as heir of a dead owner |
| Failover.HeirExists | code/cmd/broker/broker_main.go:374-400 | the backward scan ends on a live broker |
| Failover.HeirIsPredecessor | code/cmd/broker/broker_main.go:374-400 | the heir is the greatest live member below the dead owner in byte order, or the greatest live member if there is none below |
| Failover.HeirExactly | code/cmd/broker/broker_main.go:374-400 | a member is the heir if and only if it is alive and every other live member comes later going back from the owner |
| Failover.TakesOverExactly | code/cmd/broker/broker_main.go:325-401 | a broker takes over if and only if the owner is known and marked dead and every other member without a mark is further back, its own mark playing no part |
| Failover.StrLessExactly | code/cmd/broker/broker_main.go:362-362 | the sorting order compares the first letters that differ, a proper prefix first |
| Failover.FourBrokers | code/cmd/broker/broker_main.go:374-400 | of four brokers B1 stands in for B2 and B4 for B1 |
| Failover.FailoverMinimal | code/cmd/broker/broker_main.go:374-400 | a death changes the heir exactly when the heir dies |
| Failover.FailoverConsistent | code/cmd/broker/broker_main.go:1796-1865 | called under one view, responsavelPorSetor answers for a known sector exactly when the broker owns it, or its owner is dead and verificarEAtivarFailover announces it here |
| Failover.GoIndexWraps | code/cmd/broker/broker_main.go:376-379 | the truncating remainder with its correction steps back on the ring |
| Failover.AscendingUnique | code/cmd/broker/broker_main.go:362-362 | sorting the same members gives every broker the same ring |
| Readings.OneReaderOpens | code/cmd/broker/broker_main.go:403-497 | under accurate views exactly one live broker opens an occurrence for a reading with a vessel and a relevant level, and none for any other |
| Failover.ResponsavelPorSetor | code/cmd/broker/broker_main.go:325-401 | answers as the definition of responsibility says |
| Failover.VerificarEAtivarFailover | code/cmd/broker/broker_main.go:1796-1865 | announces the sector exactly when this broker is its heir |
| WebSocket.FrameRoundTrip | code/cmd/monitor/monitor_main.go:63-107 | parsing a printed frame and any bytes after it returns the payload and consumes exactly the frame, if and only if the payload is below 2^32 bytes |
| WebSocket.ParseOfFrame | code/cmd/monitor/monitor_main.go:63-107 | what comes back for any payload: its first length-modulo-2^32 bytes |
| WebSocket.MaskedFrameParses | code/cmd/monitor/monitor_main.go:78-107 | a masked frame under any key comes back unmasked |
| WebSocket.ShortestForm | code/cmd/monitor/monitor_main.go:63-76 | no shorter length field announces the same length |
| WebSocket.FrameBytes | code/cmd/monitor/monitor_main.go:63-76 | the bytes of a printed frame: 0x81, a length byte without the mask bit, one of three header sizes, and the payload as its end |
| WebSocket.ShortStream | code/cmd/monitor/monitor_main.go:78-107 | a payload that ends early is returned at the announced length with zeros behind it |
| WebSocket.XorBits | code/cmd/monitor/monitor_main.go:100-104 | a bit of the unmasked byte is set if and only if the bits of byte and key differ |
| WebSocket.MaskTwice | code/cmd/monitor/monitor_main.go:100-104 | masking twice restores the payload |
| WebSocket.WsFrame | code/cmd/monitor/monitor_main.go:63-76 | prints the frame about which the round trip is proved |
| WebSocket.WsLer | code/cmd/monitor/monitor_main.go:78-107 | reads, unmasks in place and consumes what the parser function says, short streams too |
| WebSocket.UnmaskInPlace | code/cmd/monitor/monitor_main.go:100-104 | the buffer becomes its masked contents |
| Brokers.Broker.LoopConsensus | code/cmd/broker/broker_main.go:1042-1089 | state and messages of one tick are those of the protocol's step |
| Brokers.Broker.HandleBlockProposal | code/cmd/broker/broker_main.go:1091-1138 | the same for a proposal |
| Brokers.Broker.HandleBlockVote | code/cmd/broker/broker_main.go:1140-1187 | the same for a vote, with the commit and the payments it releases |
| Brokers.Broker.HandleBlockCommit | code/cmd/broker/broker_main.go:1189-1202 | the same for a commit |
| Brokers.Broker.ProcessarTransacoesBloco | code/cmd/broker/broker_main.go:1204-1226 | queue, flags and occurrences after the loop over a block |
| Brokers.Broker.AdotarCadeia | code/cmd/broker/broker_main.go:1688-1698 | the longer chain with the same genesis hash replaces chain and file |
| Brokers.Broker.ProcessarLeitura | code/cmd/broker/broker_main.go:403-497 | what a reading opens, queues and sends |
| Brokers.Broker.EscolherDrone | code/cmd/broker/broker_main.go:827-840 | an available local drone, none only when there is none |
| Brokers.Broker.TentarDespachar | code/cmd/broker/broker_main.go:813-897 | queue, flags, drone record and messages of a dispatch, failed ones too |
| Brokers.Broker.ProcessarMensagemDrone | code/cmd/broker/broker_main.go:669-745 | drone record, flags, messages and mission log after a state report |
| Brokers.Broker.EnviarSincGlobal | code/cmd/broker/broker_main.go:1715-1738 | the loop sends the record of every known drone |
| Brokers.Broker.LerSensor | code/cmd/broker/broker_main.go:403-497 | a reading under the broker's view of the others, decided by responsavelPorSetor |
| Brokers.Broker.Atender | code/cmd/broker/broker_main.go:1042-1202 | whatever the event, a broker object that stands for a node of the system still does after it, and has sent what the system sent; after a restart another object does |
| Brokers.Broker.Continuar | code/cmd/broker/broker_main.go:1042-1202 | at the end of a history the object carries it on, its chain only grows, and every guarantee of the theorems over runs holds of it |
| Brokers.Broker.Comecar | code/cmd/broker/broker_main.go:119-156 | a new object stands for its node at the start of a history, with every guarantee |
| Brokers.ObjectGuaranteed | code/cmd/broker/broker_main.go:1042-1202 | at any moment of a run the object's chain is saved, reached and in agreement with every broker's, its queue and drone records are gated, and no paid occurrence it knows is forgotten |
| Brokers.ObjectsAgree | code/cmd/broker/broker_main.go:1042-1202 | two objects at any moments of one run hold the same block at every height that both have |
| Brokers.Broker.ProcessarMensagemBroker | code/cmd/broker/broker_main.go:1608-1698 | the same as Atender for every message, transactions too |
| Brokers.Broker.Reiniciado | code/cmd/broker/broker_main.go:119-156 | a restarted broker has the saved chain, an empty one too, and forgets votes, queue and drones |

## Left out

- Byzantine brokers: `handleBlockVote` verifies no signature and `VerifyBlockVotes` counts texts, so the runs are of honest brokers; what they send is what the handlers send.
- Locks and goroutine scheduling: each handler is one step; the length check and the replacement of a chain are one step, as agreement needs.
- Crashes between `AddBlock` and `Save`: both belong to one step, so the saved chain is the current one.
- SHA-256, ECDSA, hexadecimal and key derivation are ideal constructors; the hashed texts are real.
- Floating point: amounts are integers; `float64` sums do not conserve exactly.
- Time zones: times are printed as calendar seconds in one zone.
- Transaction kinds outside the eight constants: they behave as `MISSION_LOG`, without effect on the state.
- Unreadable chain files. On a file without blocks the objects are built, but the handlers need a block, where the program would index out of range.
- Mempool guarantees across `ReplaceChain`: they do not hold, since adoption neither validates nor prunes the mempool (`Witnesses.AdoptionConfirmsTwice`). Whether a mempool stays payable after foreign blocks with debits is not modelled either.
- LossFixedExactly: asks for addresses without colons, as those derived from keys are in hexadecimal.
- The other senders of transactions: any transaction may be submitted to any broker at any time, which covers the interface, `pagarOcorrencia` and the synchronisation of mempools.
- PaymentGating: says nothing of price and vessel owner, because `processarTransacoesBloco` looks at neither; `Authority.PaymentIsSigned` says what it does guarantee.
- Digests as texts: an occurrence id spelled like the hexadecimal hash of a transaction is another digest here, so one signature serving both uses is not seen.
- Prices, positions and the choice of the nearest drone for a quote: they change no decision that is modelled.
- The Lamport clock, wall clocks and signature randomness: parameters of the events.
- Bully election, heartbeats, discovery, TCP, UDP, HTTP, JSON, logging, the dashboard and its own balance replay, simulators and scripts.
- UniqueHeir: is about views in which the death flags are right, because the failure detector works on timeouts and is not modelled.
- The write-only table of proposals in the consensus state.
- Registrations of a drone without a record or with a record of another drone: drones register with their own.
- Positions in state reports and keepalives.
- OneMissionAtATime: is about the dispatches of one broker, because every broker that knows an occurrence queues it when it is paid, so two brokers may both dispatch it.
