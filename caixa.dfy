/**
 * A model of a small in-memory bank: clients that own checking accounts,
 * deposits and withdrawals guarded by a fixed chain of checks, and an
 * append-only transaction log per account.
 *
 * The module has two layers.
 *   - Values: `EstadoConta` is the observable state of one checking account
 *     (balance, withdrawal counter, the two limits and its log);
 *     `Depositar` and `Sacar` on it are the rules, `Transacao` is the command
 *     object, and the lemmas say what any sequence of commands preserves.
 *   - Objects: `Cliente`, `Historico` and `ContaCorrente` are classes whose
 *     methods update their fields in place; the account's deposit and
 *     withdrawal are proved to move its abstract state exactly as the
 *     value-level rule says.
 *
 * Amounts are integers; wall-clock timestamps are an opaque `data` string
 * that the caller passes in.
 */
module Caixa {

  datatype Option<T> = None | Some(value: T)

  /** The kind of a log entry ("Depósito" or "Saque"). */
  datatype Tipo = Deposito | Saque

  /** One entry of an account's log: kind, amount and timestamp. */
  datatype Registro = Registro(tipo: Tipo, valor: int, data: string)

  /** Why a withdrawal is refused, one constructor per guard, in check order. */
  datatype Recusa = ValorInvalido | ExcedeLimite | LimiteSaquesAtingido | SaldoInsuficiente

  /** Branch number given to every new account. */
  const AGENCIA: string := "0001"
  /** Default per-withdrawal cap of a checking account. */
  const LIMITE_PADRAO: int := 500
  /** Default number of withdrawals a checking account allows. */
  const LIMITE_SAQUES_PADRAO: int := 3

  // ---------------------------------------------------------------------
  // The log, read as a ledger
  // ---------------------------------------------------------------------

  /** Net effect of a log on the balance: deposits add, withdrawals subtract. */
  function Movimento(rs: seq<Registro>): int
  {
    if rs == [] then 0
    else (if rs[0].tipo == Deposito then rs[0].valor else -rs[0].valor) + Movimento(rs[1..])
  }

  /** Number of withdrawals recorded in a log. */
  function NumSaques(rs: seq<Registro>): nat
  {
    if rs == [] then 0
    else (if rs[0].tipo == Saque then 1 else 0) + NumSaques(rs[1..])
  }

  /** Appending one entry adds exactly its own signed amount and count. */
  lemma {:induction false} MovimentoAoFinal(rs: seq<Registro>, r: Registro)
    ensures Movimento(rs + [r]) == Movimento(rs) + (if r.tipo == Deposito then r.valor else -r.valor)
    ensures NumSaques(rs + [r]) == NumSaques(rs) + (if r.tipo == Saque then 1 else 0)
  {
    if rs == [] {
      assert [] + [r] == [r];
      assert [r][1..] == [];
    } else {
      assert (rs + [r])[0] == rs[0];
      assert (rs + [r])[1..] == rs[1..] + [r];
      MovimentoAoFinal(rs[1..], r);
    }
  }

  // ---------------------------------------------------------------------
  // One checking account as a value
  // ---------------------------------------------------------------------

  /** The outcome of one operation: the new state and the boolean it returns. */
  datatype Efeito = Efeito(estado: EstadoConta, ok: bool)

  /** Balance, withdrawal counter, the two limits and the log of one account. */
  datatype EstadoConta = EstadoConta(saldo: int, saquesRealizados: nat, limite: int,
                                     limiteSaques: int, transacoes: seq<Registro>)
  {
    /** The two invariants: the balance is never negative, and the counter
        never passes the limit (it stays 0 when the limit is negative). */
    predicate Valido()
    {
      saldo >= 0 && (saquesRealizados == 0 || saquesRealizados <= limiteSaques)
    }

    /** The balance and the counter agree with what the log records. */
    predicate Coerente()
    {
      saldo == Movimento(transacoes) && saquesRealizados == NumSaques(transacoes)
    }

    /** A deposit: refused with no effect unless the amount is positive;
        otherwise the balance grows and one entry is logged. */
    function Depositar(valor: int, data: string): (r: Efeito)
      ensures r.ok <==> valor > 0
      ensures !r.ok ==> r.estado == this
      ensures r.ok ==> (r.estado.saldo == saldo + valor &&
                        r.estado.transacoes == transacoes + [Registro(Deposito, valor, data)])
      ensures r.estado.saquesRealizados == saquesRealizados
      ensures r.estado.limite == limite && r.estado.limiteSaques == limiteSaques
      ensures Valido() ==> r.estado.Valido()
      ensures Coerente() ==> r.estado.Coerente()
    {
      if valor <= 0 then Efeito(this, false)
      else
        MovimentoAoFinal(transacoes, Registro(Deposito, valor, data));
        Efeito(this.(saldo := saldo + valor,
                     transacoes := transacoes + [Registro(Deposito, valor, data)]), true)
    }

    /** The first withdrawal guard that fails, in the order the checks run,
        or None when all four pass. */
    function RecusaSaque(valor: int): (r: Option<Recusa>)
      ensures r.None? <==> 0 < valor <= limite && saquesRealizados < limiteSaques && valor <= saldo
      ensures r == Some(ValorInvalido) <==> valor <= 0
      ensures r == Some(ExcedeLimite) <==> 0 < valor && limite < valor
      ensures r == Some(LimiteSaquesAtingido) <==>
                0 < valor <= limite && limiteSaques <= saquesRealizados
      ensures r == Some(SaldoInsuficiente) <==>
                0 < valor <= limite && saquesRealizados < limiteSaques && saldo < valor
    {
      if valor <= 0 then Some(ValorInvalido)
      else if valor > limite then Some(ExcedeLimite)
      else if saquesRealizados >= limiteSaques then Some(LimiteSaquesAtingido)
      else if valor > saldo then Some(SaldoInsuficiente)
      else None
    }

    /** A withdrawal: refused with no effect when a guard fails; otherwise
        the balance drops, the counter grows by one and one entry is logged. */
    function Sacar(valor: int, data: string): (r: Efeito)
      ensures r.ok <==> 0 < valor <= limite && saquesRealizados < limiteSaques && valor <= saldo
      ensures !r.ok ==> r.estado == this
      ensures r.ok ==> (r.estado.saldo == saldo - valor &&
                        r.estado.saquesRealizados == saquesRealizados + 1 &&
                        r.estado.transacoes == transacoes + [Registro(Saque, valor, data)])
      ensures r.estado.limite == limite && r.estado.limiteSaques == limiteSaques
      ensures Valido() ==> r.estado.Valido()
      ensures Coerente() ==> r.estado.Coerente()
    {
      match RecusaSaque(valor)
      case Some(_) => Efeito(this, false)
      case None =>
        MovimentoAoFinal(transacoes, Registro(Saque, valor, data));
        Efeito(this.(saldo := saldo - valor,
                     saquesRealizados := saquesRealizados + 1,
                     transacoes := transacoes + [Registro(Saque, valor, data)]), true)
    }

    /** The state after running the given commands one after another. */
    function AposPassos(passos: seq<Passo>): EstadoConta
      decreases |passos|
    {
      if passos == [] then this
      else passos[0].transacao.Aplicar(this, passos[0].data).estado.AposPassos(passos[1..])
    }
  }

  /** The state of a freshly opened checking account with the given limits. */
  function NovaConta(limite: int, limiteSaques: int): (e: EstadoConta)
    ensures e.saldo == 0 && e.saquesRealizados == 0 && e.transacoes == []
    ensures e.Valido() && e.Coerente()
    ensures e.limite == limite && e.limiteSaques == limiteSaques
  {
    EstadoConta(0, 0, limite, limiteSaques, [])
  }

  // ---------------------------------------------------------------------
  // Command objects
  // ---------------------------------------------------------------------

  /** A deposit or withdrawal command holding the amount it applies. */
  datatype Transacao = OperacaoSaque(valor: int) | OperacaoDeposito(valor: int)
  {
    /** The effect of applying this command to an account state. */
    function Aplicar(e: EstadoConta, data: string): Efeito
    {
      match this
      case OperacaoSaque(v) => e.Sacar(v, data)
      case OperacaoDeposito(v) => e.Depositar(v, data)
    }

    /** Applies the command to an account; like the source, returns nothing. */
    method Executar(conta: ContaCorrente, data: string)
      modifies conta, conta.historico
      ensures OperacaoSaque? ==> conta.Estado() == old(conta.Estado()).Sacar(valor, data).estado
      ensures OperacaoDeposito? ==> conta.Estado() == old(conta.Estado()).Depositar(valor, data).estado
      ensures old(conta.Valid()) ==> conta.Valid()
    {
      match this
      case OperacaoSaque(v) =>
        var _, _ := conta.Sacar(v, data);
      case OperacaoDeposito(v) =>
        var _ := conta.Depositar(v, data);
    }
  }

  /** One command together with the timestamp its log entry would carry. */
  datatype Passo = Passo(transacao: Transacao, data: string)

  // ---------------------------------------------------------------------
  // Properties of any sequence of commands
  // ---------------------------------------------------------------------

  /** The two invariants hold after any sequence of commands. */
  lemma {:induction false} PassosPreservamValido(e: EstadoConta, passos: seq<Passo>)
    requires e.Valido()
    ensures e.AposPassos(passos).Valido()
    decreases |passos|
  {
    if passos != [] {
      PassosPreservamValido(passos[0].transacao.Aplicar(e, passos[0].data).estado, passos[1..]);
    }
  }

  /** Balance and counter keep agreeing with the log after any sequence of commands. */
  lemma {:induction false} PassosPreservamCoerencia(e: EstadoConta, passos: seq<Passo>)
    requires e.Coerente()
    ensures e.AposPassos(passos).Coerente()
    decreases |passos|
  {
    if passos != [] {
      PassosPreservamCoerencia(passos[0].transacao.Aplicar(e, passos[0].data).estado, passos[1..]);
    }
  }

  /** The log only grows at its end, the counter never decreases and the
      limits never change. */
  lemma {:induction false} HistoricoSoCresce(e: EstadoConta, passos: seq<Passo>)
    ensures |e.transacoes| <= |e.AposPassos(passos).transacoes|
    ensures e.AposPassos(passos).transacoes[..|e.transacoes|] == e.transacoes
    ensures e.saquesRealizados <= e.AposPassos(passos).saquesRealizados
    ensures e.AposPassos(passos).limite == e.limite
    ensures e.AposPassos(passos).limiteSaques == e.limiteSaques
    decreases |passos|
  {
    if passos != [] {
      var e1 := passos[0].transacao.Aplicar(e, passos[0].data).estado;
      HistoricoSoCresce(e1, passos[1..]);
      assert e1.transacoes[..|e.transacoes|] == e.transacoes;
    }
  }

  /** Once the counter has reached the limit, every later withdrawal fails:
      the counter stays put, the balance cannot drop, and every entry added
      to the log is a deposit. */
  lemma {:induction false} LimiteAtingidoBloqueiaSaques(e: EstadoConta, passos: seq<Passo>)
    requires e.saquesRealizados >= e.limiteSaques
    ensures e.AposPassos(passos).saquesRealizados == e.saquesRealizados
    ensures e.AposPassos(passos).saldo >= e.saldo
    ensures |e.transacoes| <= |e.AposPassos(passos).transacoes|
    ensures forall i :: |e.transacoes| <= i < |e.AposPassos(passos).transacoes| ==>
              e.AposPassos(passos).transacoes[i].tipo == Deposito
    decreases |passos|
  {
    if passos != [] {
      var e1 := passos[0].transacao.Aplicar(e, passos[0].data).estado;
      LimiteAtingidoBloqueiaSaques(e1, passos[1..]);
      HistoricoSoCresce(e1, passos[1..]);
      var f := e.AposPassos(passos);
      assert f == e1.AposPassos(passos[1..]);
      forall i | |e.transacoes| <= i < |f.transacoes|
        ensures f.transacoes[i].tipo == Deposito
      {
        if i < |e1.transacoes| {
          assert f.transacoes[i] == f.transacoes[..|e1.transacoes|][i];
          assert f.transacoes[i] == e1.transacoes[i];
        }
      }
    }
  }

  /** Starting from a new account with a non-negative withdrawal limit, the
      log never records more withdrawals than the limit, and the balance is
      always what the log adds up to. */
  lemma SaquesNuncaPassamDoLimite(limite: int, limiteSaques: int, passos: seq<Passo>)
    requires limiteSaques >= 0
    ensures NumSaques(NovaConta(limite, limiteSaques).AposPassos(passos).transacoes) <= limiteSaques
    ensures NovaConta(limite, limiteSaques).AposPassos(passos).saldo
              == Movimento(NovaConta(limite, limiteSaques).AposPassos(passos).transacoes)
  {
    var e := NovaConta(limite, limiteSaques);
    PassosPreservamValido(e, passos);
    PassosPreservamCoerencia(e, passos);
    HistoricoSoCresce(e, passos);
  }

  // ---------------------------------------------------------------------
  // The objects
  // ---------------------------------------------------------------------

  /** A client: identity fields and the ordered list of accounts it owns. */
  class Cliente {
    const nome: string
    const cpf: string
    const nascimento: string
    const endereco: string
    var contas: seq<ContaCorrente>

    constructor (nome: string, cpf: string, nascimento: string, endereco: string)
      ensures this.nome == nome && this.cpf == cpf
      ensures this.nascimento == nascimento && this.endereco == endereco
      ensures contas == []
    {
      this.nome := nome;
      this.cpf := cpf;
      this.nascimento := nascimento;
      this.endereco := endereco;
      contas := [];
    }

    /** Adds the account at the end of the list, keeping the earlier ones. */
    method AbrirConta(conta: ContaCorrente)
      modifies this
      ensures contas == old(contas) + [conta]
    {
      contas := contas + [conta];
    }
  }

  /** An account's transaction log. */
  class Historico {
    var transacoes: seq<Registro>

    constructor ()
      ensures transacoes == []
    {
      transacoes := [];
    }

    /** Appends one entry at the end; earlier entries are untouched. */
    method Registrar(tipo: Tipo, valor: int, data: string)
      modifies this
      ensures transacoes == old(transacoes) + [Registro(tipo, valor, data)]
    {
      transacoes := transacoes + [Registro(tipo, valor, data)];
    }
  }

  /** A checking account: balance and log shared by every account kind, plus
      the per-withdrawal cap, the withdrawal limit and the withdrawal counter. */
  class ContaCorrente {
    const numero: string
    const cliente: Cliente
    const agencia: string
    var saldo: int
    const historico: Historico
    const limite: int
    const limiteSaques: int
    var saquesRealizados: nat

    /** The account's state as a value. */
    function Estado(): EstadoConta
      reads this, historico
    {
      EstadoConta(saldo, saquesRealizados, limite, limiteSaques, historico.transacoes)
    }

    /** The object invariant: the value-level invariants of the current state. */
    predicate Valid()
      reads this, historico
    {
      Estado().Valido() && Estado().Coerente()
    }

    /** Opens an account with an empty log and a zero balance; the limits
        default to 500 per withdrawal and 3 withdrawals. */
    constructor (numero: string, cliente: Cliente,
                 limite: int := LIMITE_PADRAO, limiteSaques: int := LIMITE_SAQUES_PADRAO)
      ensures this.numero == numero && this.cliente == cliente && agencia == AGENCIA
      ensures fresh(historico)
      ensures Estado() == NovaConta(limite, limiteSaques)
      ensures saldo == 0 && saquesRealizados == 0 && historico.transacoes == []
      ensures this.limite == limite && this.limiteSaques == limiteSaques
      ensures Valid()
    {
      this.numero := numero;
      this.cliente := cliente;
      agencia := AGENCIA;
      saldo := 0;
      historico := new Historico();
      this.limite := limite;
      this.limiteSaques := limiteSaques;
      saquesRealizados := 0;
    }

    /** Deposits `valor`: fails with no effect unless it is positive. */
    method Depositar(valor: int, data: string) returns (ok: bool)
      modifies this, historico
      ensures Efeito(Estado(), ok) == old(Estado()).Depositar(valor, data)
      ensures ok <==> valor > 0
      ensures !ok ==> saldo == old(saldo) && historico.transacoes == old(historico.transacoes)
      ensures ok ==> (saldo == old(saldo) + valor &&
                      historico.transacoes == old(historico.transacoes) + [Registro(Deposito, valor, data)])
      ensures saquesRealizados == old(saquesRealizados)
      ensures old(Valid()) ==> Valid()
    {
      if valor <= 0 {
        return false;
      }
      saldo := saldo + valor;
      historico.Registrar(Deposito, valor, data);
      return true;
    }

    /** Withdraws `valor`: the four guards run in order and any failure
        leaves the account untouched. `motivo` is the guard that refused the
        withdrawal (the message the account would print), or None on success. */
    method Sacar(valor: int, data: string) returns (ok: bool, ghost motivo: Option<Recusa>)
      modifies this, historico
      ensures motivo == old(Estado()).RecusaSaque(valor)
      ensures ok <==> motivo.None?
      ensures Efeito(Estado(), ok) == old(Estado()).Sacar(valor, data)
      ensures ok <==> 0 < valor <= limite && old(saquesRealizados) < limiteSaques && valor <= old(saldo)
      ensures !ok ==> (saldo == old(saldo) && saquesRealizados == old(saquesRealizados) &&
                       historico.transacoes == old(historico.transacoes))
      ensures ok ==> (saldo == old(saldo) - valor && saquesRealizados == old(saquesRealizados) + 1 &&
                      historico.transacoes == old(historico.transacoes) + [Registro(Saque, valor, data)])
      ensures old(Valid()) ==> Valid()
    {
      if valor <= 0 {
        return false, Some(ValorInvalido);
      }
      if valor > limite {
        return false, Some(ExcedeLimite);
      }
      if saquesRealizados >= limiteSaques {
        return false, Some(LimiteSaquesAtingido);
      }
      if valor > saldo {
        return false, Some(SaldoInsuficiente);
      }
      saldo := saldo - valor;
      saquesRealizados := saquesRealizados + 1;
      historico.Registrar(Saque, valor, data);
      return true, None;
    }
  }
}
