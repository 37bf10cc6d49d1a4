# Caixa: a verified model of a small in-memory bank

This project models `caixa.py`, a small banking state machine. A client
(`Cliente`) owns a list of accounts. A checking account (`ContaCorrente`)
holds a balance (`saldo`), a per-withdrawal cap (`limite`, default 500), a
withdrawal limit (`limite_saques`, default 3), a withdrawal counter
(`saques_realizados`) and a transaction log (`Historico`). Deposits
(`depositar`) and withdrawals (`sacar`) return a success flag. Every failure
leaves the account untouched. Every success logs exactly one entry. The
command objects `OperacaoSaque` and `OperacaoDeposito` apply their stored
amount to an account.

Everything is in `caixa.dfy`, module `Caixa`, in two layers:

- **Values.** `EstadoConta` is the state of one checking account as a
  datatype. Its member functions `Depositar`, `RecusaSaque` and `Sacar` are
  the rules. `Transacao` (with the variants `OperacaoSaque` and
  `OperacaoDeposito`) is the command object. The lemmas say what any sequence
  of commands preserves.
- **Objects.** `Cliente`, `Historico` and `ContaCorrente` are classes whose
  methods update their fields in place. `ContaCorrente.Depositar` and
  `ContaCorrente.Sacar` are proved to move the account's state exactly as the
  matching value-level rule says
  (`Efeito(Estado(), ok) == old(Estado()).Sacar(valor, data)`), and they also
  state their effect field by field with `old(...)`. `ContaCorrente.Sacar`
  also returns, as a ghost value, the guard that refused the withdrawal. That
  value is proved equal to `RecusaSaque`, which fixes the order of the checks.
  `Historico.Registrar` and `Cliente.AbrirConta` state the append they perform
  with `old(...)`. `Transacao.Executar` is proved to have the state effect of
  the value-level `Sacar` or `Depositar`.

Two invariants are proved:

- `Valido`: the balance is never negative, and the counter never passes
  `limite_saques`. The counter stays 0 when that limit is negative.
- `Coerente`: the balance equals the signed sum of the log, and the counter
  equals the number of withdrawals in the log.

The timestamp that `registrar` reads from the wall clock is an opaque `data`
string. The caller passes it to `Registrar`, `Depositar`, `Sacar` and
`Executar`. Amounts are unbounded integers.

`OperacaoSaque.executar` and `OperacaoDeposito.executar` (caixa.py:96-97,
104-105) return nothing, and `Transacao.Executar` does the same.

## Model

| member | source | states |
|---|---|---|
| `Caixa.Cliente.constructor` | caixa.py:6-11 | the four identity fields are stored and the account list starts empty |
| `Caixa.Cliente.AbrirConta` | caixa.py:13-14 | the account is appended at the end of `contas`; earlier entries are unchanged |
| `Caixa.Historico.constructor` | caixa.py:18-19 | the log starts empty |
| `Caixa.Historico.Registrar` | caixa.py:21-26 | exactly one entry (kind, amount, timestamp) is appended at the end; earlier entries are unchanged |
| `Caixa.ContaCorrente.constructor` | caixa.py:30-35 | a new account has branch "0001", balance 0, a fresh empty log, counter 0, the given limits (defaults 500 and 3), and satisfies both invariants |
| `Caixa.NovaConta` | caixa.py:30-61 | the initial account state has balance 0, counter 0 and an empty log, satisfies both invariants and keeps the given limits |
| `Caixa.ContaCorrente.Depositar` | caixa.py:40-47 | succeeds iff the amount is positive; on failure balance and log are unchanged; on success the balance rises by exactly the amount and one deposit entry is appended; the counter never changes; the invariants are preserved |
| `Caixa.EstadoConta.Depositar` | caixa.py:40-47 | the value-level deposit: same success condition, no-op on failure, exact effect on success, and it preserves `Valido` and `Coerente` |
| `Caixa.EstadoConta.RecusaSaque` | caixa.py:63-78 | the reason reported is the first failing guard in source order: invalid amount iff amount <= 0; over the cap iff the amount is positive and exceeds the cap, whatever the balance; limit reached iff the amount is valid and the counter is at the limit; insufficient balance only when the first three pass; none iff all four pass |
| `Caixa.EstadoConta.Sacar` | caixa.py:63-84 | succeeds iff 0 < amount <= cap, counter < limit and amount <= balance; on failure the whole state is unchanged; on success the balance drops by the amount, the counter rises by 1 and one withdrawal entry is appended; preserves `Valido` and `Coerente` |
| `Caixa.ContaCorrente.Sacar` | caixa.py:63-84 | the ghost reason returned is the first failing guard (`RecusaSaque`), so the four checks run in source order; the method has exactly the value-level effect; field by field: every failure is a no-op, a success changes balance, counter and log by the stated amounts; the invariants are preserved |
| `Caixa.Transacao.Executar` | caixa.py:92-105 | a withdrawal command has exactly the state effect of `sacar` with its stored amount, and a deposit command that of `depositar`; nothing is returned |
| `Caixa.MovimentoAoFinal` | caixa.py:21-26 | appending one log entry adds exactly its signed amount to the ledger sum, and one to the withdrawal count when it is a withdrawal |
| `Caixa.PassosPreservamValido` | caixa.py:44-84 | balance >= 0 and counter within the limit hold after any sequence of commands |
| `Caixa.PassosPreservamCoerencia` | caixa.py:44-84 | after any sequence of commands, balance and counter still agree with the log |
| `Caixa.HistoricoSoCresce` | caixa.py:21-26 | under any sequence of commands the log only grows at its end, the counter never decreases and the limits never change |
| `Caixa.LimiteAtingidoBloqueiaSaques` | caixa.py:72-81 | once the counter has reached the limit, every later withdrawal fails: the counter stays put, the balance cannot drop, and every new log entry is a deposit (nothing resets the counter) |
| `Caixa.SaquesNuncaPassamDoLimite` | caixa.py:57-84 | from a new account with limit >= 0, the log never holds more withdrawals than the limit, and the balance always equals the log's signed sum |

## Left out

- Console output: every `print` and its message, including the reason text of a refused withdrawal. That reason is kept as the value `RecusaSaque` returns.
- `extrato`: it only prints the log and the balance, with two-decimal float formatting.
- The wall clock in `registrar`: the timestamp is a string the caller passes in.
- Floating-point amounts: amounts are unbounded integers.
- The `ABC`/`abstractmethod` base classes `ContaBancaria` and `Transacao`. `ContaCorrente` is the only account kind, so the shared deposit logic sits in it. The command base is a datatype whose variants are the two operations.
- Dynamic typing: the model cannot express a call with a non-numeric amount.
- Aliasing between the logs of different accounts: each account gets a fresh log at construction, but the model does not track that no two accounts ever share one.
- Caixa.Historico.Registrar: the kind of an entry is the two-valued `Tipo` rather than an arbitrary string; the file only ever records "Depósito" and "Saque".
