# CEG node: verified core

A Dafny model of the parts of the CEG blockchain node whose guarantees span several functions, with
proofs that hold for every input, every run and every reachable state. `dafny verify dfyconfig.toml`
checks the whole project.

| file | what it models |
|---|---|
| `Quorum.dfy` | the quorum table and the overlap of quorums |
| `PbftInstance.dfy` | one (view, sequence) instance: handlers, buffers and the `Go` loop |
| `CommitProof.dfy` | validator numbering, commit proofs: assembling and checking |
| `PbftReplica.dfy` | one replica: how each event changes it, and what every event keeps |
| `PbftNode.dfy` | the `Pbft` object with its fields updated in place, proved to compute `PbftReplica` |
| `PbftSystem.dfy` | all replicas and every message sent: agreement |
| `PbftValidity.dfy` | all replicas: only valid values are voted for and decided, and nobody waits with enough votes |
| `PbftProgress.dfy`, `PbftViews.dfy` | what is delivered, what survives each event, and what happens between views |
| `PbftScenario.dfy` | two runs that show the limits of agreement and of commit proofs |
| `LedgerReplay.dfy`, `LedgerEffects.dfy` | the propose, check and follow modes of block execution, and what a block does |
| `Issuance.dfy` | block rewards and their allocation |
| `LedgerUpgrade.dfy` | voting on ledger upgrades |
| `TxPool.dfy` | the transaction pool |
| `Ranking.dfy` | ranked candidate lists, shared by two contracts |
| `DposRewards.dfy`, `DposState.dfy`, `Dpos.dfy`, `DposSafety.dfy`, `DposRuns.dfy` | the DPoS contract |
| `DposClaims.dfy`, `DposEntries.dfy`, `DposPayout.dfy` | who is paid what by it, what happens to single reward entries, and when its paying calls go through |
| `DposSplit.dfy`, `DposStakes.dfy`, `DposBallots.dfy`, `DposRecords.dfy`, `DposAnswers.dfy` | who gets which part of a reward, whose stake changes, who decides, what is on file, and which calls go through |
| `Cobuild.dfy`, `CobuildPayout.dfy`, `CobuildHoldings.dfy`, `CobuildAnswers.dfy` | the co-building contract: who is paid what, who holds what, and which calls go through |
| `ValidatorsVote.dfy`, `VoteHoldings.dfy`, `VoteBallots.dfy`, `VoteAnswers.dfy` | the validator election by vote: what every account has pledged, who decides, and which calls go through |
| `Atp60.dfy`, `TokenRights.dfy` | balances of the ATP 60 token contract, and who may change them |
| `Chain.dfy`, `Finite.dfy`, `Runs.dfy` | 64-bit amounts and addresses; counting and sums over finite sets and maps; induction over runs |

How the source is read:

- **Signatures and digests.** The `sender` of a message is its author, as `CheckMessageItem` enforces;
  the digest is injective. A faulty replica may send anything under its own number, at any time.
- **Messages** are never lost from the set of sent messages, so they may arrive late, repeatedly, in any
  order or never; timers are events that may happen at any time.
- **History.** Three fields of `Replica` are read by no handler: `sealed` (the digest first prepared at
  an index), `renewed` (indices whose instance was created again after that) and `early` (indices that
  took a commit from outside the window before any pre-prepare). They let the agreement theorem name its
  condition. The normal message path is the one that does not go through `early`.
- **Contracts.** A call that throws is `None`; the chain undoes it as a whole, so the state stays as it
  was. Amounts are integers, and every 64-bit overflow throws. Storage keys are structured values, and
  `payCoin` is an atomic transfer that fails without enough balance. Each contract is a class whose one
  field is the stored state; loops of the source are methods proved equal to the functions the proofs use.
- **Block execution** runs transactions by deterministic rules (`Rules`). The one assumption, that a
  transaction which passed `ValidForApply` can be charged, is what its fee check establishes.
- **The pool.** The place of a new element in the priority queue is unspecified unless the queue is in
  order, since account nonces change under it. What the pool does is stated for every queue; what that
  means on a queue in order is stated beside it.

Where the code differs from what its comments or names suggest, the model follows the code:

- The attached view changes of a new-view message are counted by the replica they name, because the
  envelope verified inside the loop is the new-view message itself (`PbftReplica.NewViewByNameOnly`).
- A commit that does not match the instance's digest is still buffered, and spoils the assembled proof if
  it is its sender's first (`PbftScenario.DeliveredWithoutProof`).
- An instance can be erased and started again at the same index while commits for it are under way, and
  two honest replicas can then decide differently there (`PbftScenario.RestartDisagrees`).
- A full share transfer to an account with unpledged shares leaves `pledgedShares` too high and the
  contract short of coins (`CobuildPayout.AcceptMixes`).
- Once the initiator of a co-build has handed over all shares, every reward throws
  (`CobuildPayout.RewardsRefused`).
- A covered claim on the DPoS contract is not always payable: after the last validator has left, a coin
  that comes in blocks every extract for good (`DposPayout.RewardNeverPaid`).
- `init` of the vote contract makes every initial validator a validator, so the first-hundred rule holds
  from the start exactly for at most a hundred of them, and otherwise from the first change among the
  first hundred on (`ValidatorsVote.RunSafe`). Until then a validator can leave unnoticed and its abolition
  throws, against the comment at src/contract/validators_vote.js:333 (`VoteHoldings.LookupFails`).
- An abolition proposal of the vote contract that is renewed after its deadline gets the present time as
  its new deadline.

## Model

| member | source | states |
|---|---|---|
| Quorum.QuorumSize | src/consensus/bft.cpp:1424-1450 | Twice (quorum+1) exceeds n plus the fault bound (n-1)/3, and quorum+1 honest replicas exist, for every n >= 1; the wrap-around at an empty set is written out. |
| Quorum.QuorumsOverlap | src/consensus/bft.cpp:1424-1450 | Any two sets of quorum+1 replicas share at least one more replica than may be faulty. |
| Quorum.HonestInBoth | src/consensus/bft.cpp:1424-1450 | With at most (n-1)/3 faulty replicas two quorum+1 sets share an honest one. |
| Quorum.HonestQuorum | src/consensus/bft.cpp:1424-1450 | The honest replicas alone reach quorum+1, so faulty ones cannot block by silence. |
| PbftInstance.ReadNext | src/consensus/bft_instance.cpp:85-104 | Each round of the loop raises the phase or moves one message on within it: the lexicographic measure of termination. |
| PbftInstance.RunGo | src/consensus/bft_instance.cpp:72-107 | The loop over the phase buffers ends and computes the recursive description used by the proofs. |
| PbftInstance.PrePrepareKeeps | src/consensus/bft.cpp:756-830 | OnPrePrepare keeps every phase certificate, moves no phase back and never replaces a digest; what the value check decides is stated by PbftValidity.VotesAreValid. |
| PbftInstance.PrepareKeeps | src/consensus/bft.cpp:832-875 | OnPrepare reaches PREPARED only on quorum distinct matching prepares and sends a commit only for the instance's digest. |
| PbftInstance.CommitKeeps | src/consensus/bft.cpp:877-906 | On the normal path OnCommit reaches COMMITED only on quorum+1 distinct matching commits, keeps every certificate and asks for execution exactly then. |
| PbftInstance.CommitHandled | src/consensus/bft.cpp:550-583 | The same for a commit from outside the water mark, once a value is known: certificates hold, nothing is sent and no prepare changes. |
| PbftInstance.GoKeeps | src/consensus/bft_instance.cpp:72-107 | Over a whole run of Go: phases never go back, the digest is fixed once it leaves NONE, PREPARED and COMMITED rest on their quorums of messages that were really received, and execution is asked for exactly when COMMITED is reached. |
| CommitProof.NumberValidators | src/consensus/consensus.cpp:54-76 | The refill loop gives each address the number of its first occurrence. |
| CommitProof.NumberingIsPosition | src/consensus/consensus.cpp:54-76 | For distinct addresses a validator's number is its position and the map has as many entries as the set. |
| CommitProof.CheckProof | src/consensus/bft.cpp:1776-1835 | Accepts if and only if every entry is a genuine commit for the hash by a different validator and there are quorum+1 of them. |
| CommitProof.ProofSoundness | src/consensus/bft.cpp:1776-1835 | An accepted proof holds genuine commits for the hash by at least quorum+1 distinct validators, each under its own number, and no signer twice. |
| CommitProof.ProofsShareSigners | src/consensus/bft.cpp:1776-1835 | Two accepted proofs under one validator set share more signers than may be faulty, whatever their hashes. |
| CommitProof.AssembleProof | src/consensus/bft.cpp:1198-1210 | The collecting loop keeps the first buffered commit of every sender, in order. |
| CommitProof.FirstPerSenderFirst | src/consensus/bft.cpp:1198-1210 | A message is in the assembled proof if and only if it came before every other one of its sender. |
| CommitProof.ProofRoundTrip | src/consensus/bft.cpp:1183-1214 | The proof assembled for a committed instance is accepted for its digest if and only if the first buffered commit of each sender carries that digest. |
| CommitProof.ProofAccepted | src/consensus/bft.cpp:1183-1214 | If every buffered commit carries the digest, the assembled proof is accepted for the same validator set. |
| CommitProof.NormalPathBuffered | src/consensus/bft.cpp:704-707 | On the normal path an instance has recorded nothing that is not in its own buffers, which the round trip relies on. |
| PbftReplica.ExecutionInOrder | src/consensus/bft.cpp:1183-1227 | TryExecuteValue delivers only COMMITED values, each exactly at last_exe_seq_ + 1, and leaves the surviving instances alone; that it delivers all it can is PbftProgress.ExecutionExhausts. |
| PbftProgress.ExecutionExhausts | src/consensus/bft.cpp:1183-1227 | After TryExecuteValue a COMMITED value that is next in sequence can only be left waiting behind an earlier index that is still pending. |
| PbftProgress.ExecutionDelivers | src/consensus/bft.cpp:1183-1227 | A COMMITED value next in sequence with no earlier index pending is the first to be delivered, with its own proof; already executed instances do not stand in the way. |
| PbftProgress.ExecutionForgets | src/consensus/bft.cpp:1215-1227 | Delivering forgets exactly the instances that have fallen behind the executed sequence by half a checkpoint interval. |
| PbftProgress.CommitExhausts | src/consensus/bft.cpp:877-906 | Every event that commits an instance also delivers all that is then deliverable. |
| PbftProgress.RunDelivers | src/consensus/bft.cpp:1183-1227 | The same for every honest replica in every step of every run of the system. |
| PbftProgress.CommittedIsDelivered | src/consensus/bft.cpp:877-906 | A message that commits the next index with no earlier one pending has its value delivered by the same event. |
| PbftReplica.AdmitProgress | src/consensus/bft.cpp:627-754 | An admitted message never changes the view and delivers only consecutive sequence numbers. |
| PbftReplica.TraceOutProgress | src/consensus/bft.cpp:550-625 | A commit outside the window either delivers in order or, with quorum+1 commits far ahead, jumps the sequence forward. |
| PbftProgress.TraceOutExact | src/consensus/bft.cpp:550-625 | A commit for an unknown index is recorded once per sender and, exactly when quorum+1 agree on a sequence a checkpoint interval ahead, followed to its view and sequence, with all instances behind it dropped. |
| PbftViews.TraceOutForgets | src/consensus/bft.cpp:584-625 | Catching up that way forgets exactly the view changes the replica had asked for itself. |
| PbftReplica.ViewChangeProgress | src/consensus/bft.cpp:908-972 | A primary that enters a view enters a higher one, on more than quorum distinct senders, and its new-view message passes the receivers' test. |
| PbftReplica.NewViewProgress | src/consensus/bft.cpp:974-1066 | A replica follows a new-view message exactly when the view is higher, it is not the new primary itself, and more than quorum replicas are named. |
| PbftReplica.NewViewByNameOnly | src/consensus/bft.cpp:1000-1030 | One replica can name the others: the attached view changes are counted by the replica they name, not by who signed them. |
| PbftReplica.NewViewWhenGenuine | src/consensus/bft.cpp:974-1066 | If the attached view changes are genuine, more than quorum replicas asked for the view that is entered. |
| PbftProgress.ViewChangeEnters | src/consensus/bft.cpp:908-972 | A primary enters a view exactly with the sender that makes more than quorum, only once, and its new-view message names exactly those senders; otherwise the sender is recorded. |
| PbftProgress.ViewChangeInstances | src/consensus/bft.cpp:1150-1175 | A primary that enters a view keeps exactly the COMMITED instances and those PREPARED beyond the executed sequence, unchanged. |
| PbftProgress.NewViewInstances | src/consensus/bft.cpp:1034-1066 | So does a replica that follows it. |
| PbftViews.PrimaryRemembers | src/consensus/bft.cpp:1068-1087 | Of the view-change records exactly the completed ones of the last five views are left when a primary enters a view, with the one just completed. |
| PbftViews.FollowerRemembers | src/consensus/bft.cpp:1068-1087 | The same for a replica that follows. |
| PbftViews.InactiveSilent | src/consensus/bft.cpp:1452-1470 | A replica that gave up its view neither proposes nor votes, apart from repeating itself, and becomes active only by entering another view or by moving to a later sequence. |
| PbftViews.SilentUntilEntered | src/consensus/bft.cpp:1452-1470 | The same over every run from a timeout on, until the view or the sequence changes. |
| PbftReplica.UpdateProgress | src/consensus/bft.cpp:1667-1770 | A validator update lowers neither the view nor the executed sequence. |
| PbftProgress.UpdateReaches | src/consensus/bft.cpp:1667-1770 | The view reached is one past that of the proof's first commit, the sequence is that commit's, each only if it is ahead, and the number and size are the new ones. |
| PbftProgress.UpdateInstances | src/consensus/bft.cpp:1638-1665 | An update that changes anything keeps exactly the COMMITED instances, unchanged. |
| PbftReplica.RequestProgress | src/consensus/bft.cpp:304-350 | A request keeps the view, the log and the executed sequence. |
| PbftProgress.RequestInstances | src/consensus/bft.cpp:319-344 | A primary's request drops exactly what is not COMMITED beyond the executed sequence and starts its own index anew; anybody else's changes nothing. |
| PbftProgress.CommittedSurvives | src/consensus/bft.cpp:319-344 | A COMMITED instance beyond the executed sequence survives an event if and only if its index is not requested anew and no higher view takes over its sequence. |
| PbftReplica.EventProgress | src/consensus/bft.cpp:710-754 | Over every event: the executed sequence never goes down, values are delivered one after the other, the log stays ordered, and only a trace-out lowers the view. |
| PbftReplica.RunProgress | src/consensus/bft.cpp:1183-1227 | The same over every run of any length: the log only grows and stays strictly ordered. |
| PbftNode.EraseUnless | src/consensus/bft.cpp:319-332 | An erase loop leaves exactly the instances that satisfy its condition. |
| PbftNode.FirstIndex | src/consensus/bft_instance.cpp:26-36 | Iteration of the instance map starts at the least (view, sequence). |
| PbftNode.Pbft.TryExecuteValue | src/consensus/bft.cpp:1183-1227 | The loop over the ordered instances, updating the fields in place, computes the delivery that PbftProgress.ExecutionExhausts and PbftProgress.ExecutionDelivers pin down. |
| PbftNode.Pbft.Request | src/consensus/bft.cpp:304-350 | Erases pending instances, starts the new one, and leaves everything else alone. |
| PbftNode.Pbft.CreateInstanceIfNotExist | src/consensus/bft.cpp:682-707 | Buffers the message in its instance, creating it and erasing older views of that sequence if needed. |
| PbftNode.Pbft.OnRecv | src/consensus/bft.cpp:710-754 | The three normal-case messages, in place, as specified. |
| PbftNode.Pbft.TryDoTraceOut | src/consensus/bft.cpp:584-625 | Jumps to the view and sequence of a quorum of commits far ahead. |
| PbftNode.Pbft.RecvViewChange | src/consensus/bft.cpp:908-972 | Collects view changes and enters the view as its new primary. |
| PbftNode.Pbft.RecvNewView | src/consensus/bft.cpp:974-1066 | The loop over the attached view changes and the entry into the view. |
| PbftNode.Pbft.UpdateValidators | src/consensus/bft.cpp:1667-1770 | Renumbers, clears what is not committed, and moves view and sequence forward. |
| PbftSystem.EventOk | src/consensus/bft.cpp:710-754 | Every event of an honest replica keeps the system invariant: its instances are accounted for by sent messages and all its commits for an index it did not restart carry one digest. |
| PbftSystem.RunKeepsInv | src/consensus/bft.cpp:756-906 | The invariant holds in every state of every run with any number of replicas and any behaviour of the faulty ones. |
| PbftSystem.CommittedQuorum | src/consensus/bft.cpp:877-906 | A COMMITED instance rests on quorum+1 commits that were really sent. |
| PbftSystem.Agreement | src/consensus/bft.cpp:756-906 | In every state of every run two honest replicas never decide different values at one (view, sequence), as long as faulty replicas and replicas that restarted this index number at most (n-1)/3 together. |
| PbftValidity.VotesAreValid | src/consensus/bft.cpp:756-830 | In every run each prepare and commit an honest replica ever sent carries the hash of a value that it requested at that index itself, or that came to it there in a pre-prepare and passed its check. |
| PbftValidity.DecisionsAreKnown | src/consensus/bft.cpp:772-819 | In every run a value an honest replica decides was requested by itself, or came to it in a pre-prepare for that index whose check did not refuse it. |
| PbftValidity.PhasesArePrompt | src/consensus/bft_instance.cpp:72-107 | In every state of every run no instance waits with enough matching votes in its buffers: below quorum prepares while PREPREPARED, at most quorum commits while PREPARED, and a prepared value that passed the check has been committed to. |
| PbftScenario.RestartDisagrees | src/consensus/bft.cpp:319-344 | The bound is tight: for any two values there is a run of four replicas, number 3 faulty, in which only replica 0 restarts the index and honest replicas 1 and 2 decide the two values there. |
| PbftScenario.DeliveredWithoutProof | src/consensus/bft.cpp:1198-1214 | In a run of four replicas with number 3 faulty, honest replica 1 delivers a value whose proof no validator set accepts for it, because the faulty commit was buffered first. |
| PbftSystem.ViewEntryWasAsked | src/consensus/bft.cpp:908-972 | In every run a primary enters only higher views, and more than quorum replicas have sent a view change for it. |
| PbftSystem.RunKeepsNewViews | src/consensus/bft.cpp:938-972 | In every run the view changes an honest replica attaches to a new-view message were really sent by the replicas named. |
| PbftSystem.NewViewWasAsked | src/consensus/bft.cpp:974-1066 | In every run a replica that follows an honest sender's new-view message enters a higher view that more than quorum replicas asked for. |
| LedgerReplay.CheckConsValueValidation | src/ledger/ledger_frm.cpp:170-215 | Accepts exactly the validation objects whose ids all name a transaction and occur once over both lists. |
| LedgerReplay.ToList | src/ledger/ledger_frm.cpp:217-230 | The iteration of an id set: all members, ascending. |
| LedgerReplay.ApplyPropose | src/ledger/ledger_frm.cpp:232-315 | The propose loop computes its specification, with ids shifted by the transactions dropped so far, and announces exactly the expire and error sets; what the transactions do is LedgerEffects.ProposeEffect. |
| LedgerReplay.ApplyCheck | src/ledger/ledger_frm.cpp:317-400 | The check loop accepts if and only if every transaction is payable and the measured sets are the announced ones; what the transactions do is LedgerEffects.BlockExact. |
| LedgerReplay.ApplyFollow | src/ledger/ledger_frm.cpp:402-468 | The follow loop applies the block by the announced marks; what the transactions do is LedgerEffects.FollowEffect. |
| LedgerReplay.FilterDropped | src/glue/glue_manager.cpp:164-181 | The filter keeps the transactions at all other positions, in order, and hands the dropped ones to the pool. |
| LedgerReplay.ProposeCounts | src/ledger/ledger_frm.cpp:254-302 | The ids Propose records are positions in the filtered list, and its applied list is the filtered list. |
| LedgerReplay.CheckAcceptsExactly | src/ledger/ledger_frm.cpp:317-400 | For the kept list Check accepts exactly the validation objects that denote Propose's two sets, and those announced by Propose are among them. |
| LedgerReplay.FollowRepeatsCheck | src/ledger/ledger_frm.cpp:402-468 | Any block Check accepts, whoever proposed it, is followed to the same environment, fee, transactions and error set. |
| LedgerReplay.ReplayEquivalence | src/ledger/ledger_frm.cpp:232-468 | Propose, filter, Check and Follow end with the same environment, total fee and transactions for every list of transactions; which environment that is, LedgerEffects states by the rules alone. |
| LedgerEffects.BlockExact | src/ledger/ledger_frm.cpp:317-400 | Check ends in a given state if and only if a path of (environment, total) pairs leads there, one step per transaction: valid, charged, its nonce raised, then what it did and the refund, unless it is marked; it is marked failed exactly when it fails and expired exactly when it expires. |
| LedgerEffects.ProposeEffect | src/ledger/ledger_frm.cpp:254-302 | The transactions a proposer keeps lead to its result along such a path. |
| LedgerEffects.ProposeDrops | src/ledger/ledger_frm.cpp:254-302 | A proposer drops exactly the transactions that are not valid or cannot be charged when it is their turn. |
| LedgerEffects.FollowEffect | src/ledger/ledger_frm.cpp:402-468 | So does every block that Check accepts for whoever follows it, with exactly the announced marks. |
| LedgerReplay.FeeOfDropped | src/ledger/transaction_frm.cpp:263-301 | If a valid transaction could fail to pay after the total was raised, the totals would differ: the one assumption is needed. |
| Issuance.GetBlockReward | src/common/general.cpp:358-381 | The loop computes the reward of the height's period. |
| Issuance.RewardNonIncreasing | src/common/general.cpp:358-381 | The reward never rises with the height and is zero from REWARD_PERIOD * REWARD_INIT_VALUE on. |
| Issuance.RewardDecays | src/common/general.cpp:358-381 | The reward is the same all through a period and falls to three quarters in the next, rounded up from four units on and down below. |
| Issuance.FirstRewards | src/common/general.cpp:358-381 | The first four periods pay 8, 6, 4.5 and 3.375 coins a block. |
| Issuance.IssuanceBound | src/common/general.h:117-118 | All rewards together stay below 7 * REWARD_INIT_VALUE * REWARD_PERIOD, which fits 64 bits. |
| Issuance.AllocateRewardDirectly | src/ledger/ledger_frm.cpp:536-585 | The loop credits the average and one leftover, fails exactly on an empty set or an overflow, and then commits nothing. |
| Issuance.AllocationExact | src/ledger/ledger_frm.cpp:536-585 | The balances rise by exactly the total reward if and only if it is not negative or divides evenly. |
| Issuance.SharesEqual | src/ledger/ledger_frm.cpp:552-573 | Distinct validators each get the average and nobody else anything. |
| LedgerUpgrade.LedgerUpgrade.Recv | src/glue/ledger_upgrade.cpp:89-114 | Stores the latest verified notice of a sender for this chain, and nothing else. |
| LedgerUpgrade.LedgerUpgrade.OnTimer | src/glue/ledger_upgrade.cpp:40-58 | Forgets exactly the notices older than the lifetime. |
| LedgerUpgrade.LedgerUpgrade.GetValid | src/glue/ledger_upgrade.cpp:116-154 | Finds an upgrade if and only if some stored one is backed by the threshold of distinct validators, in any iteration order. |
| LedgerUpgrade.UpgradeUnique | src/glue/glue_manager.cpp:125-137 | With the proposer's threshold quorum+1 at most one upgrade qualifies. |
| TxPool.TransactionQueue.Remove | src/glue/transaction_queue.cpp:34-70 | The transaction leaves all four indexes and the queue keeps its order; exactly an account without transactions left loses its nonce entry. |
| TxPool.TransactionQueue.Insert | src/glue/transaction_queue.cpp:72-80 | The transaction joins all four indexes at some place of the queue, the right one if the queue is in order. |
| TxPool.TransactionQueue.Evict | src/glue/transaction_queue.cpp:126-138 | The eviction loop ends within the pool limit and gives up exactly the last transaction of the queue, or none; an account that lost its last transaction loses its nonce, and no other. |
| TxPool.TransactionQueue.Import | src/glue/transaction_queue.cpp:82-150 | A refused transaction changes no index. Any other takes the place of the one with its key, and the last of the queue goes if it is too long; all limits hold. The sender's nonce is set, and exactly the accounts that lost their last transaction lose theirs. |
| TxPool.VictimLast | src/glue/transaction_queue.cpp:126-138 | On a queue in order the transaction given up is the farthest from its account's nonce and, among those as far, the cheapest; what is left is in order. |
| TxPool.SortedMeans | src/glue/transaction_queue.h:50-60 | A queue is in order exactly when distances from the account nonces ascend along it and, among equal distances, prices never rise. |
| TxPool.ImportAnswer | src/glue/transaction_queue.cpp:82-150 | Import answers true exactly when the transaction is pooled afterwards, except that one already pooled at a positive price is refused. |
| TxPool.AgreeMeans | src/glue/transaction_queue.h:62-91 | Queue, time queue, address index and hash index hold exactly the transactions of one map from (address, nonce). |
| TxPool.TransactionQueue.RemoveTxs | src/glue/transaction_queue.cpp:204-226 | The named transactions leave and the count is the number that were there. Exactly the accounts that lost their last transaction lose their nonce; for a closed ledger the other nonces rise to the highest closed one and never fall. |
| TxPool.TransactionQueue.CheckTimeoutAndDel | src/glue/transaction_queue.cpp:266-279 | Exactly the transactions older than the timeout leave, oldest first, and exactly the accounts that lost their last transaction lose their nonce. |
| TxPool.TransactionQueue.Query | src/glue/transaction_queue.cpp:321-329 | A hash is found if and only if a pooled transaction has it. |
| TxPool.SelectTop | src/glue/transaction_queue.cpp:152-202 | On any queue, in order or not, the loop takes of every account all that comes before its first gap in the looked-at part, at most limit transactions in all. |
| TxPool.TransactionQueue.TopTransaction | src/glue/transaction_queue.cpp:152-202 | The same for the pool's own queue. If that is in order, everything looked at is nearer its account's nonce than what is not, or as near at no lower price. |
| TxPool.PickedComplete | src/glue/transaction_queue.h:50-60 | On a queue in order under PriorityCompare, whose meaning is TxPool.SortedMeans, the loop takes exactly the transactions whose earlier nonces are all pooled: a gap once met is never filled later. |
| TxPool.RemembersStep | src/glue/transaction_queue.cpp:170-196 | One round of the loop: the broken accounts are exactly those with a gap so far, and for the others the last nonce is remembered. |
| TxPool.ContiguousRun | src/glue/transaction_queue.cpp:152-202 | The selected nonces of an account are a contiguous run starting right after its account nonce. |
| TxPool.SelectedAscend | src/glue/transaction_queue.cpp:152-202 | Within the selection the nonces of an account ascend. |
| Ranking.SortSorted | src/contract/dpos.js:29-37 | Sorting distinct candidates yields the list ranked by stake and then address. |
| Ranking.LessTotal | src/contract/dpos.js:32-34 | The address order is total and strict. |
| DposRewards.Distribute | src/contract/dpos.js:87-104 | The loop gives every node its part and the first one the remainder, or aborts. |
| DposRewards.SplitReward | src/contract/dpos.js:106-124 | The method computes the split that DposSplit.SplitExact describes address by address: an empty group passes its part on, and every overflow throws. |
| DposRewards.CalculateRaises | src/contract/dpos.js:106-124 | For every reward, every pattern of empty groups and all shares adding up to 100 the entitlements rise by exactly the reward and none falls; who gets which part is DposSplit.SplitExact. |
| DposSplit.SplitExact | src/contract/dpos.js:87-124 | Address by address: each member of a group gains the group's amount divided by its size, the first member the remainder as well, and the first validator what the hundreds leave over. The amounts are the groups' percentages and what empty groups pass on, and nobody else gains. |
| DposSplit.RewardGives | src/contract/dpos.js:126-137 | rewardDistribution gives every entry exactly that part of the coins that came in. |
| DposSplit.ElectGives | src/contract/dpos.js:67-137 | In every state that keeps the invariant, so does a distribution among the contract's own ranked lists. |
| DposSplit.CrossingGives | src/contract/dpos.js:342-361 | A distribution on the way of a stake change uses the formal lists from before it and the waiting ones from after it. |
| DposRewards.CalculateSucceeds | src/contract/dpos.js:106-124 | With a validator, non-negative shares and room in 64 bits the split never aborts. |
| DposState.RewardKeeps | src/contract/dpos.js:126-137 | Distributing turns exactly the unrecorded balance into claims. |
| DposState.AwardExact | src/contract/dpos.js:147-173 | award pays exactly the entitlement for every ratio, to the candidate and the pool only, and clears or deletes the entry. |
| DposState.EveryClaimPayable | src/contract/dpos.js:53-65 | In a solvent state transferCoin by itself has the stake and the coins for any recorded refund, vote or reward. Whether a call gets that far is what ElectExact to CleanExact below state. |
| DposSafety.UpdateStakeGood | src/contract/dpos.js:342-361 | A stake change keeps lists ranked and distinct and the surplus unchanged, with or without a reward distribution on the way. |
| DposAnswers.StakeDistributes | src/contract/dpos.js:342-361 | A stake change distributes all that waits exactly when the candidate joins or leaves the formal members of its list, and otherwise changes nobody's reward. |
| DposSafety.AddGood | src/contract/dpos.js:276-318 | Adding a candidate keeps addresses and node addresses distinct; the list stays within its size and gains nobody else. |
| DposAnswers.AddLists | src/contract/dpos.js:276-318 | An approved applicant gets onto the list if and only if the list is not full of candidates with at least its stake and its rank is within the size. |
| DposSafety.DeleteGood | src/contract/dpos.js:320-340 | Deleting a candidate takes exactly that address off its list and leaves the other list alone. |
| DposSafety.ApplyGood | src/contract/dpos.js:367-386 | The coins sent with an application become claims to the last one; the invariant holds. |
| DposSafety.AppendGood | src/contract/dpos.js:388-421 | So does an additional pledge, before and after approval. |
| DposSafety.ApproveApplyGood | src/contract/dpos.js:457-472 | Approval keeps the link between candidates and approved applications. |
| DposSafety.ApproveAbolishGood | src/contract/dpos.js:474-487 | Abolition removes the candidate before the pledge is forfeited, and forfeits exactly that pledge. |
| DposSafety.ApproveConfigGood | src/contract/dpos.js:443-455 | A passed configuration keeps the shares at 100 and sizes positive. |
| DposSafety.VoteGood | src/contract/dpos.js:538-562 | The coins sent with a vote become claims to the last one, with the candidate ranked anew. |
| DposSafety.UnVoteGood | src/contract/dpos.js:564-584 | Taking votes back lowers balance, stake and claims alike and keeps the lists ranked. |
| DposSafety.WithdrawGood | src/contract/dpos.js:667-703 | Withdrawal keeps the invariant and the surplus, but for the pledge a resigning committee member forfeits. |
| DposSafety.ExtractGood | src/contract/dpos.js:175-204 | Awarding any list of addresses keeps solvency. |
| DposSafety.SetNodeGood | src/contract/dpos.js:754-778 | A new node address keeps node addresses distinct and ranks unchanged. |
| DposSafety.CleanGood | src/contract/dpos.js:813-828 | Cleaning an expired application or exit keeps the invariant and the surplus. |
| DposSafety.MainGood | src/contract/dpos.js:990-1048 | Every call that does not throw keeps the invariant and raises the surplus by exactly what it forfeits: an abolished pledge or that of a resigning committee member, otherwise nothing. |
| DposRuns.InitialInv | src/contract/dpos.js:938-988 | The contract starts in the invariant. |
| DposRuns.RunSafe | src/contract/dpos.js:990-1048 | From initialization on, in every state of every run balance >= allStake >= all claims, the surplus never falls, and both candidate lists are ranked, without a repeated address, and without a repeated node address. |
| DposBallots.RunDecides | src/contract/dpos.js:497-531 | Over every run from initialization: an applicant is accepted, a pledge forfeited or the configuration changed only if more than floor(committee * pass rate) different members approved just that, each a member when it did. |
| DposBallots.ApproveApplyExact | src/contract/dpos.js:457-531 | An application passes exactly with the approval that makes enough; every other approval in time is noted. |
| DposBallots.ApproveAbolishExact | src/contract/dpos.js:474-531 | An abolition takes effect exactly with the approval that makes enough. |
| DposBallots.ApproveConfigExact | src/contract/dpos.js:443-531 | A setting is taken over exactly with the approval that makes enough. |
| DposRecords.ConfiguredExact | src/contract/dpos.js:443-455 | Exactly the item that was voted on takes the value that was proposed. |
| DposRecords.MainRecords | src/contract/dpos.js:990-1048 | For every call that goes through, what every application, exit, proposal, penalty and setting becomes, with its deadline, and who is on the committee; nothing else on file changes. |
| DposStakes.MainStakes | src/contract/dpos.js:990-1048 | For every call and every candidate: a stake changes only by the votes for it and its own magnified pledge, joining starts with the magnified pledge, and one leaves by its own withdrawal, by abolition, or pushed off a full list by others that are all ahead of it. |
| DposAnswers.MainExact | src/contract/dpos.js:990-1048 | The exact condition under which each call goes through: no payment ever fails and no record overflows, and besides the caller's own conditions only a distribution that nobody can receive stands in the way. |
| DposRuns.Contract.Invoke | src/contract/dpos.js:990-1048 | A call that throws leaves the contract unchanged; one that goes through leaves the specified state. |
| Dpos.ExtractLoop | src/contract/dpos.js:196-203 | The loop over the award-receiving addresses. |
| DposClaims.MainMoves | src/contract/dpos.js:990-1048 | Every call but extract moves at most one claim and pays nothing but that claim, in full and to its owner: coins sent become the sender's claim, a refund goes to whoever pledged or voted, a candidate's pledge becomes the exit record, and only abolition and a resignation forfeit. Every other claim stays as it was. |
| DposClaims.ExtractPays | src/contract/dpos.js:175-204 | extract makes exactly the payments that are due after distribution: for each listed address, once, its own validator and KOL entitlements, the dividend to its pool and the rest to itself. Its entries end empty or gone, and no other entry changes. |
| DposClaims.AwardAllDue | src/contract/dpos.js:196-203 | The award loop pays the listed addresses what each is due, in the order of the list, and nothing for an address listed again. |
| DposEntries.MainKept | src/contract/dpos.js:990-1048 | Every call but extract leaves each address's entitlement at least as high as it was. Pools and ratios change in the sender's own entry only, by setVoteDividend, and only whoever joins the candidates gets a new entry, which starts empty. |
| DposPayout.ElectExact | src/contract/dpos.js:106-137 | With an account within 64 bits and no negative group share, distribution goes through if and only if there is nothing to distribute or a validator is left. |
| DposPayout.ExtractExact | src/contract/dpos.js:175-204 | extract goes through if and only if it lists at most a hundred addresses and distribution is possible; every entitlement listed is then payable. |
| DposPayout.WithdrawExact | src/contract/dpos.js:667-703 | The exact condition of withdraw for every role: what is on record, the deadline, and distribution for a listed candidate. |
| DposPayout.CleanExact | src/contract/dpos.js:813-828 | An expired application or exit can always be cleaned, and nothing else can. |
| DposPayout.UpdateStakeExact | src/contract/dpos.js:342-361 | A stake changes if and only if it stays within 64 bits and, on crossing the formal line, distribution is possible. |
| DposPayout.UnVoteExact | src/contract/dpos.js:564-584 | Votes come back if and only if they are on record and the candidate's stake can change. |
| DposPayout.StuckForever | src/contract/dpos.js:119-124 | Once coins wait and no validator is left, this stays so over every continuation, and every extract fails. |
| DposPayout.RewardNeverPaid | src/contract/dpos.js:667-703 | The run in which that happens: the only validator leaves with a reward of 100 on record, one more coin comes in, and no call ever pays it. |
| Cobuild.CreditEach | src/contract/cobuild.js:80-85 | The forEach credits every pledged builder by shares, in any order, or aborts. |
| Cobuild.MarkEach | src/contract/cobuild.js:159-166 | The forEach of setStatus and resetStatus marks every builder. |
| Cobuild.DistributeExact | src/contract/cobuild.js:76-91 | A reward raises the awards by exactly the coins received and touches nothing else. |
| Cobuild.SubscribeKeeps | src/contract/cobuild.js:101-116 | Subscribed shares are paid for. |
| Cobuild.RevokeKeeps | src/contract/cobuild.js:118-137 | Revoking lowers coins and claims by the same amount and keeps the totals. |
| Cobuild.CoApplyKeeps | src/contract/cobuild.js:168-182 | What is pledged is the price of all shares, all of which were free. |
| Cobuild.CoAppendKeeps | src/contract/cobuild.js:193-202 | What is appended is the price of exactly the free shares. |
| Cobuild.AcceptKeeps | src/contract/cobuild.js:257-289 | A transfer keeps the totals if and only if the taker holds no unpledged share; then no claim loses cover. |
| Cobuild.RefundKeeps | src/contract/cobuild.js:359-369 | A refund keeps the totals and changes the cover by its amount less the price of the pledged shares. |
| Cobuild.ExtractKeeps | src/contract/cobuild.js:388-413 | Extracting lowers coins and claims by the same amount and keeps the totals. |
| Cobuild.MainKeeps | src/contract/cobuild.js:456-512 | Every call that mixes no shares keeps the totals, and the coins beyond all claims change by exactly what a disbanded contract keeps or a refund brings too much or too little. |
| Cobuild.CreatedBalanced | src/contract/cobuild.js:514-540 | The state that init stores is balanced, with the reserve as slack. |
| Cobuild.InitBalanced | src/contract/cobuild.js:514-540 | Whatever init accepts, with its checks on unit and funds, starts balanced with every coin accounted for. |
| Cobuild.RunSafe | src/contract/cobuild.js:456-512 | In every fair run from init allShares and pledgedShares are the sums over the builders and the balance covers every unpledged share, every award and the reserve. |
| CobuildPayout.MainPays | src/contract/cobuild.js:456-512 | For every call and every account, what it was paid and is still owed grows by exactly what the call entitles it to: coins subscribed, shares sold, rewards by pledged shares, released pledges; pledging moves the price of free shares to the DPoS contract. |
| CobuildPayout.StrangersUnpaid | src/contract/cobuild.js:456-512 | An account without shares gets nothing from any call. |
| CobuildPayout.RunPays | src/contract/cobuild.js:456-540 | Over every fair run from init: what an account was paid and is owed is its first stake plus everything it was entitled to. |
| CobuildHoldings.MainHolds | src/contract/cobuild.js:101-289 | For every call and every account, by how much its shares change and whether they are pledged afterwards. |
| CobuildHoldings.MainOffers | src/contract/cobuild.js:243-289 | An offer is made, changed and taken back by its giver alone, and ends when it is accepted. |
| CobuildHoldings.MainAuthorised | src/contract/cobuild.js:456-512 | No call goes through for somebody who may not make it, or without the full price. |
| CobuildHoldings.PollExact | src/contract/cobuild.js:334-357 | Each pledged builder counts once with its shares, and the release is carried exactly when the shares counted are more than half of the pledged ones. |
| CobuildAnswers.MainStatus | src/contract/cobuild.js:291-386 | For every call, whether the co-build is pledged, asks for release or is disbanded afterwards. |
| CobuildAnswers.MainExact | src/contract/cobuild.js:456-512 | The exact condition under which each call goes through on a balanced, covered contract: no payment ever fails and no sum overflows. |
| CobuildAnswers.RunExact | src/contract/cobuild.js:456-540 | The same in every fair run from init. |
| CobuildPayout.RewardExact | src/contract/cobuild.js:76-91 | A covered contract whose balance fits 64 bits takes a reward if and only if it is disbanded, or has pledged shares and its initiator holds one. |
| CobuildPayout.RewardsRefused | src/contract/cobuild.js:86-88 | A fair run from init after which every reward throws: the initiator has handed over all shares. |
| CobuildPayout.AcceptMixes | src/contract/cobuild.js:268-284 | A run from init with a legal unit after which the totals are wrong and the claims exceed the coins by ten units: a subscriber takes over all pledged shares. |
| ValidatorsVote.FindI0 | src/contract/validators_vote.js:78-95 | The loop finds the first position of an address. |
| ValidatorsVote.InsertCandidatesSorted | src/contract/validators_vote.js:97-130 | The two loops insert exactly where rank demands, or refuse a full list. |
| ValidatorsVote.ShareForfeit | src/contract/validators_vote.js:348-352 | The loop raises exactly the first n stakes. |
| ValidatorsVote.PledgeCoin | src/contract/validators_vote.js:140-182 | pledgeCoin, with its loops, as specified. |
| ValidatorsVote.VoteForAbolish | src/contract/validators_vote.js:302-357 | The vote on an abolition, with its loops, as specified. |
| ValidatorsVote.RaisedOk | src/contract/validators_vote.js:144-156 | A candidate who pledges more moves up; if not into the first hundred, the first hundred stay the same. |
| ValidatorsVote.VoteForGood | src/contract/validators_vote.js:184-228 | A vote for an applicant, whether it refunds, counts or elects, keeps candidates ranked and distinct, no coin lost or made, and the chain's validators in step. |
| ValidatorsVote.TakebackGood | src/contract/validators_vote.js:230-253 | Taking the pledge back keeps the chain's validators in step. |
| ValidatorsVote.LookupSucceeds | src/contract/validators_vote.js:332-333 | Where the first-hundred rule holds, whoever is a validator is found among the candidates, with enough others to share a forfeit. |
| ValidatorsVote.ExpelGood | src/contract/validators_vote.js:332-356 | An expulsion keeps candidates ranked and distinct: refund and shared forfeit together are the pledge, to the last coin, and the new first hundred are published. |
| ValidatorsVote.MainGood | src/contract/validators_vote.js:383-407 | Every call keeps candidates ranked and distinct, neither loses nor makes a coin, and either brings the first-hundred rule about or changes neither the chain's validators nor the first hundred. |
| ValidatorsVote.MainPays | src/contract/validators_vote.js:184-357 | Every payment goes to the account whose pledge leaves the books: all of it, or nine tenths after an abolition. |
| VoteHoldings.MainHolds | src/contract/validators_vote.js:140-357 | For every call and every account, what its pledge becomes: the sender's rises by the coins sent or is taken back whole, an expired applicant's is refunded, an elected applicant keeps the whole pledge as stake, and of an expelled validator's forfeit each of the first validators left gains the average and the very first the remainder. Every other pledge stays. |
| VoteBallots.VoteForExact | src/contract/validators_vote.js:184-228 | An applicant is elected exactly by the vote that makes at least 0.7 n + 0.5, rounded down, of the n validators; every other vote is noted. |
| VoteBallots.VoteAbolishExact | src/contract/validators_vote.js:302-357 | A validator is expelled exactly by the vote that makes as many; a vote too late ends the proposal. |
| VoteBallots.RunDecides | src/contract/validators_vote.js:184-357 | Over every run: nobody becomes a candidate, and nobody stops being one against its will, without the votes of that many accounts that were validators when they voted. |
| VoteAnswers.MainRecords | src/contract/validators_vote.js:140-357 | For every call, what every application and every abolition proposal becomes, with its votes and its deadline. |
| VoteAnswers.MainCovers | src/contract/validators_vote.js:383-407 | A contract whose account covers all pledges still does after any call. |
| VoteAnswers.MainExact | src/contract/validators_vote.js:383-407 | The exact condition under which each call goes through: no refund ever lacks coins and no stake overflows. |
| VoteAnswers.RunExact | src/contract/validators_vote.js:383-419 | In every run from at most a hundred covered validators the pledges stay covered and every call goes through exactly under that condition. |
| ValidatorsVote.InitialInv | src/contract/validators_vote.js:409-419 | The first-hundred rule holds at the start if and only if there are at most a hundred initial validators; everything else holds for any number. |
| ValidatorsVote.RunSafe | src/contract/validators_vote.js:383-419 | In every state of every run, from any number of validators, candidates are ranked and distinct, applicants are no candidates, and pledges plus payments equal initial pledges plus coins pledged. The chain's validators are the first hundred, unless more than a hundred were there at the start and the first hundred never changed since. |
| VoteHoldings.LookupNeverFails | src/contract/validators_vote.js:332-333 | From at most a hundred validators on, in every state of every run whoever is a validator is found among the candidates, so the lookup during an abolition never fails. |
| VoteHoldings.LookupFails | src/contract/validators_vote.js:241-250 | From any larger set it can: a run in which the last validator takes its pledge back, stays a validator, and the vote that carries its abolition throws. |
| Atp60.AddKeeps | src/contract/atp60.js:766-775 | Adding raises one tranche and its account alike and keeps both levels in step. |
| Atp60.SubKeeps | src/contract/atp60.js:796-806 | The unchecked second subtraction always succeeds; both levels fall alike. |
| Atp60.IssueKeeps | src/contract/atp60.js:1064-1157 | Issuing stores balances outright, which is right because an unissued SKU has none. |
| Atp60.AdditionalKeeps | src/contract/atp60.js:1317-1355 | Additional issuance raises supply, balance and tranche alike. |
| Atp60.TransferKeeps | src/contract/atp60.js:815-822 | A transfer moves exactly the value between the two accounts, also to oneself, and no supply changes. |
| Atp60.AssignKeeps | src/contract/atp60.js:1366-1398 | Assigning to a tranche changes no account's balance. |
| Atp60.DestroyKeeps | src/contract/atp60.js:835-845 | Destroying lowers supply and balance alike. |
| Atp60.RunSafe | src/contract/atp60.js:695-845 | From the initial state on, in every state of every run total supply is the sum of account balances and each account balance the sum of its tranche balances. |
| TokenRights.MainGains | src/contract/atp60.js:766-845 | For every call, by how much every tranche balance and every supply changes. |
| TokenRights.MainEntitled | src/contract/atp60.js:740-806 | Only the seller issues, assigns, destroys and creates tranches; tokens move only by their holder or by a spender allowed at least as much, whose allowance falls by just as much; allowances come from the owner only. |
| TokenRights.MainRegisters | src/contract/atp60.js:1006-1157 | The default tranche of a SKU is chosen when it is issued, for good, and tranches are only ever added. |
| TokenRights.MainExact | src/contract/atp60.js:740-845 | The exact condition under which each call goes through; no transfer or assignment ever fails for what its receiver already has, since no account holds more than the supply. |
| TokenRights.RunExact | src/contract/atp60.js:695-845 | The same in every run from the initial state. |

## Left out

- Agreement across views: the prepared set a new primary carries over is chosen by sequence only, so it is not claimed.
- PbftSystem.Agreement: assumes one validator set; a change of the set starts a new system. It covers decisions on the normal path, not those of an index that took a commit from outside the window before its pre-prepare.
- PbftValidity.VotesAreValid: excepts a commit without a digest, which a replica can send at an index that took a commit from outside the window before any pre-prepare.
- LedgerReplay.ReplayEquivalence: leaves out cancellation, the block timeout and the retry loop of `StartConsensus`, whose shrink step does not decrease at one transaction.
- Issuance.AllocateRewardDirectly: the branch of `AllocateReward` that credits the whole reward to the DPoS contract's account is one addition and is not modelled.
- TxPool.SelectTop: the byte-size limit is a position at which the loop may stop, since it depends on protobuf encoding sizes.
- TxPool.TransactionQueue.Import: the replacement test uses exact arithmetic, ten times the price difference against the old price, instead of a double product.
- TxPool.TransactionQueue.Remove: the four indexes are one record field, so that a removal replaces them together; iterators are modelled by the elements they point to.
- ValidatorsVote.MainGood: the pass rate 0.7 * n + 0.5 is computed exactly as (7n + 5) / 10, not in doubles.
- DposSafety.MainGood: address syntax checks, logging, `setValidators`, `configFee` and the paged queries have no effect on claims or lists and are not modelled; shares are whole numbers.
- DposPayout.ElectExact: this and the exact conditions of the calls that rest on it assume that no group's reward share is negative, which the configuration check does not exclude, and that the account is within 64 bits.
- DposPayout.RewardNeverPaid: rests on the chain accepting an empty validator list (src/contract/v8_contract_write.cpp:243-284), which is not part of this model.
- Cobuild.MainKeeps: calls into the DPoS contract are modelled by what they pay and by the rewards and refunds they send back, given as parameters or later calls.
- CobuildPayout.RunPays: holds for fair runs, as Cobuild.RunSafe does; CobuildPayout.MainPays holds for every call in a balanced state, mixing or not.
- Cobuild.RunSafe: assumes that a full transfer meets no unpledged shares and that refunds come in full, the two conditions `Cobuild.AcceptKeeps` and `Cobuild.RefundKeeps` show to be exact.
- TokenRights.MainExact: the sender of the transaction and of the message are one account, and the syntax checks on names, the existence of the SPU and the acceptance, and the supply recorded per tranche are not modelled.
- DposAnswers.MainExact: assumes what DposPayout.ElectExact does, and addresses that are well formed.
- CobuildAnswers.MainExact: assumes an account within 64 bits and that the calls into the DPoS contract go through.
- VoteAnswers.MainExact: assumes an account within 64 bits, pledges that are covered and the first-hundred rule.
- Atp60.RunSafe: paged lists, documents, acceptances, redemption records and supply per tranche are not modelled.
- Contracts update one stored record at the end of a call instead of key by key: partial writes are undone by the chain when a call throws, and are not visible to anyone before it ends.
- Callbacks through `payCoin` and the double precision of amounts parsed from storage.
- Message resending is modelled only as far as it sends commits and pre-prepares again; persistence, status reports and timers' durations are not.
- Checkpoint messages, network, web and console interfaces, configuration, the V8 embedding, database drivers, the account trie, signatures, hashes and key storage.
- `dex.js`, `fees-voting.js`, `contractBasedToken.js`, `dpos_delegate.js` and the remaining contracts, which would only add easy members.
