/** The three FluentValidation validators of the request records, as rule
    chains. FluentValidation's default cascade mode runs every rule of a
    chain, so a value collects one message per rule it breaks, in order. */
module Validators {
  import opened Domain
  import opened Dtos
  import opened Strings

  /** A rule of a chain with the message configured by `WithMessage`. */
  datatype Passo<R> = Passo(regra: R, mensagem: Mensagem)

  /** The string rules used: NotEmpty, MinimumLength, MaximumLength, Matches. */
  datatype RegraTexto =
    | NaoVazio
    | ComprimentoMinimo(n: nat)
    | ComprimentoMaximo(n: nat)
    | CasaPadrao(classe: Classe)

  /** The two regular expressions, both of the form `^[...]+$`. */
  datatype Classe =
    | MaiusculasDigitosHifen        // ^[A-Z0-9-]+$
    | LetrasDigitosHifenSublinhado  // ^[a-zA-Z0-9-_]+$

  /** The numeric rules used: GreaterThanOrEqualTo, LessThanOrEqualTo, GreaterThan. */
  datatype RegraNumero =
    | MaiorOuIgual(limite: int)
    | MenorOuIgual(limite: int)
    | MaiorQue(limite: int)

  /** The messages of the rules of `regras` that `v` breaks, in chain order. */
  function Erros<R, V>(regras: seq<Passo<R>>, satisfaz: (R, V) -> bool, v: V): seq<string>
  {
    if regras == [] then []
    else (if satisfaz(regras[0].regra, v) then [] else [Texto(regras[0].mensagem)])
         + Erros(regras[1..], satisfaz, v)
  }

  /** A value passes a chain exactly when it satisfies every rule of it. */
  lemma {:induction false} ErrosVaziosSse<R, V>(regras: seq<Passo<R>>, satisfaz: (R, V) -> bool, v: V)
    ensures Erros(regras, satisfaz, v) == [] <==> forall i :: 0 <= i < |regras| ==> satisfaz(regras[i].regra, v)
  {
    if regras != [] {
      ErrosVaziosSse(regras[1..], satisfaz, v);
      assert forall i :: 1 <= i < |regras| ==> regras[i] == regras[1..][i - 1];
    }
  }

  /** Every reported message is the message of a rule that `v` breaks. */
  lemma {:induction false} ErroVemDeRegraViolada<R, V>(regras: seq<Passo<R>>, satisfaz: (R, V) -> bool, v: V, m: string)
    requires m in Erros(regras, satisfaz, v)
    ensures exists i :: 0 <= i < |regras| && Texto(regras[i].mensagem) == m && !satisfaz(regras[i].regra, v)
  {
    if satisfaz(regras[0].regra, v) || m != Texto(regras[0].mensagem) {
      ErroVemDeRegraViolada(regras[1..], satisfaz, v, m);
      var i :| 0 <= i < |regras[1..]| && Texto(regras[1..][i].mensagem) == m && !satisfaz(regras[1..][i].regra, v);
      assert regras[i + 1] == regras[1..][i];
    }
  }

  /** A three-rule chain passes exactly when each of its rules holds. */
  lemma Erros3<R, V>(a: Passo<R>, b: Passo<R>, c: Passo<R>, satisfaz: (R, V) -> bool, v: V)
    ensures Erros([a, b, c], satisfaz, v) == []
        <==> satisfaz(a.regra, v) && satisfaz(b.regra, v) && satisfaz(c.regra, v)
  {
    var regras := [a, b, c];
    ErrosVaziosSse(regras, satisfaz, v);
    assert regras[0] == a && regras[1] == b && regras[2] == c;
  }

  predicate NaClasse(classe: Classe, c: char)
  {
    match classe
    case MaiusculasDigitosHifen => 'A' <= c <= 'Z' || '0' <= c <= '9' || c == '-'
    case LetrasDigitosHifenSublinhado =>
      'a' <= c <= 'z' || 'A' <= c <= 'Z' || '0' <= c <= '9' || c == '-' || c == '_'
  }

  predicate TodosNaClasse(classe: Classe, s: string)
  {
    forall i :: 0 <= i < |s| ==> NaClasse(classe, s[i])
  }

  /** `Regex.IsMatch(s, "^[...]+$")`. Without RegexOptions.Multiline, .NET's
      `$` matches at the end of the input and also just before a final
      line feed, so one trailing '\n' after the run is accepted. */
  predicate CasaRegex(classe: Classe, s: string)
  {
    (|s| > 0 && TodosNaClasse(classe, s))
    || (|s| > 1 && s[|s| - 1] == '\n' && TodosNaClasse(classe, s[..|s| - 1]))
  }

  predicate SatisfazTexto(regra: RegraTexto, s: string)
  {
    match regra
    case NaoVazio => !EmBranco(s)
    case ComprimentoMinimo(n) => ComprimentoUtf16(s) >= n
    case ComprimentoMaximo(n) => ComprimentoUtf16(s) <= n
    case CasaPadrao(classe) => CasaRegex(classe, s)
  }

  predicate SatisfazNumero(regra: RegraNumero, x: int)
  {
    match regra
    case MaiorOuIgual(limite) => x >= limite
    case MenorOuIgual(limite) => x <= limite
    case MaiorQue(limite) => x > limite
  }

  const SaldoMaximo: int := 999_999_999_999
  const QuantidadeMaxima: int := 999_999

  /** The messages configured with `WithMessage`, one per rule. */
  datatype Mensagem =
    | MsgCodigoObrigatorio
    | MsgCodigoLongo
    | MsgCodigoInvalido
    | MsgDescricaoObrigatoria
    | MsgDescricaoCurta
    | MsgDescricaoLonga
    | MsgSaldoNegativo
    | MsgSaldoAlto
    | MsgCodigoBaixaLongo
    | MsgQuantidadeNaoPositiva
    | MsgQuantidadeAlta
    | MsgChaveObrigatoria
    | MsgChaveLonga
    | MsgChaveInvalida

  function Texto(m: Mensagem): string
  {
    match m
    case MsgCodigoObrigatorio => "O código do produto é obrigatório"
    case MsgCodigoLongo => "O código não pode ter mais de 50 caracteres"
    case MsgCodigoInvalido => "O código deve conter apenas letras maiúsculas, números e hífens"
    case MsgDescricaoObrigatoria => "A descrição é obrigatória"
    case MsgDescricaoCurta => "A descrição deve ter pelo menos 3 caracteres"
    case MsgDescricaoLonga => "A descrição não pode ter mais de 200 caracteres"
    case MsgSaldoNegativo => "O saldo (estoque) não pode ser negativo"
    case MsgSaldoAlto => "O saldo (estoque) não pode exceder 999.999.999.999"
    case MsgCodigoBaixaLongo => "Código inválido"
    case MsgQuantidadeNaoPositiva => "A quantidade deve ser maior que zero"
    case MsgQuantidadeAlta => "Quantidade muito alta (máximo: 999.999)"
    case MsgChaveObrigatoria => "A chave de idempotência é obrigatória"
    case MsgChaveLonga => "Chave de idempotência muito longa"
    case MsgChaveInvalida => "Chave de idempotência contém caracteres inválidos"
  }

  const RegrasCodigo: seq<Passo<RegraTexto>> := [
    Passo(NaoVazio, MsgCodigoObrigatorio),
    Passo(ComprimentoMaximo(50), MsgCodigoLongo),
    Passo(CasaPadrao(MaiusculasDigitosHifen), MsgCodigoInvalido)]

  const RegrasDescricao: seq<Passo<RegraTexto>> := [
    Passo(NaoVazio, MsgDescricaoObrigatoria),
    Passo(ComprimentoMinimo(3), MsgDescricaoCurta),
    Passo(ComprimentoMaximo(200), MsgDescricaoLonga)]

  const RegrasSaldo: seq<Passo<RegraNumero>> := [
    Passo(MaiorOuIgual(0), MsgSaldoNegativo),
    Passo(MenorOuIgual(SaldoMaximo), MsgSaldoAlto)]

  const RegrasCodigoBaixa: seq<Passo<RegraTexto>> := [
    Passo(NaoVazio, MsgCodigoObrigatorio),
    Passo(ComprimentoMaximo(50), MsgCodigoBaixaLongo)]

  const RegrasQuantidade: seq<Passo<RegraNumero>> := [
    Passo(MaiorQue(0), MsgQuantidadeNaoPositiva),
    Passo(MenorOuIgual(QuantidadeMaxima), MsgQuantidadeAlta)]

  const RegrasChave: seq<Passo<RegraTexto>> := [
    Passo(NaoVazio, MsgChaveObrigatoria),
    Passo(ComprimentoMaximo(100), MsgChaveLonga),
    Passo(CasaPadrao(LetrasDigitosHifenSublinhado), MsgChaveInvalida)]

  /** CriarProdutoValidator: the messages of every broken rule. */
  function ValidarCriarProduto(dto: CriarProdutoDTO): seq<string>
  {
    Erros(RegrasCodigo, SatisfazTexto, dto.codigo)
    + Erros(RegrasDescricao, SatisfazTexto, dto.descricao)
    + Erros(RegrasSaldo, SatisfazNumero, dto.saldo as int)
  }

  /** AtualizarProdutoValidator. */
  function ValidarAtualizarProduto(dto: AtualizarProdutoDTO): seq<string>
  {
    Erros(RegrasDescricao, SatisfazTexto, dto.descricao)
    + Erros(RegrasSaldo, SatisfazNumero, dto.saldo as int)
  }

  /** BaixaEstoqueValidator. */
  function ValidarBaixaEstoque(dto: BaixaEstoqueDTO): seq<string>
  {
    Erros(RegrasCodigoBaixa, SatisfazTexto, dto.codigoProduto)
    + Erros(RegrasQuantidade, SatisfazNumero, dto.quantidade as int)
    + Erros(RegrasChave, SatisfazTexto, dto.idempotencyKey)
  }

  // ---- What each chain accepts, stated without the chains ----

  /** A run of class characters, optionally followed by one line feed. */
  predicate FormaDeRegex(classe: Classe, s: string)
  {
    exists k :: 1 <= k <= |s| && TodosNaClasse(classe, s[..k])
                && (k == |s| || (k == |s| - 1 && s[k] == '\n'))
  }

  lemma CasaRegexSse(classe: Classe, s: string)
    ensures CasaRegex(classe, s) <==> FormaDeRegex(classe, s)
  {
    if CasaRegex(classe, s) {
      if |s| > 0 && TodosNaClasse(classe, s) {
        assert s[..|s|] == s;
      } else {
        assert TodosNaClasse(classe, s[..|s| - 1]);
      }
    }
    if FormaDeRegex(classe, s) {
      var k :| 1 <= k <= |s| && TodosNaClasse(classe, s[..k]) && (k == |s| || (k == |s| - 1 && s[k] == '\n'));
      if k == |s| { assert s[..k] == s; }
    }
  }

  /** No character of either class is white space, so a string matching
      either pattern is never blank. */
  lemma CasaRegexNaoEmBranco(classe: Classe, s: string)
    requires CasaRegex(classe, s)
    ensures !EmBranco(s)
  {
    assert !EhEspaco(s[0]);
  }

  lemma {:induction false} AsciiUtf16(classe: Classe, s: string)
    requires TodosNaClasse(classe, s)
    ensures ComprimentoUtf16(s) == |s|
  {
    if s != [] {
      assert TodosNaClasse(classe, s[1..]) by {
        forall i | 0 <= i < |s[1..]| ensures NaClasse(classe, s[1..][i]) { assert s[1..][i] == s[i + 1]; }
      }
      AsciiUtf16(classe, s[1..]);
    }
  }

  /** A regex match is measured in characters: the run is ASCII. */
  lemma CasaRegexComprimento(classe: Classe, s: string)
    requires CasaRegex(classe, s)
    ensures ComprimentoUtf16(s) == |s|
  {
    if |s| > 0 && TodosNaClasse(classe, s) {
      AsciiUtf16(classe, s);
    } else {
      var t := s[..|s| - 1];
      AsciiUtf16(classe, t);
      assert s == t + ['\n'];
      Utf16Concat(t, ['\n']);
    }
  }

  /** The product code of a creation request is accepted iff it is 1 to 50
      characters of A-Z, 0-9 and '-', optionally followed by one line feed
      (the trailing line feed is let through by `$`). */
  lemma CodigoCriacaoValidoSse(codigo: string)
    ensures Erros(RegrasCodigo, SatisfazTexto, codigo) == []
        <==> |codigo| <= 50 && FormaDeRegex(MaiusculasDigitosHifen, codigo)
  {
    CadeiaDePadraoSse(RegrasCodigo, MaiusculasDigitosHifen, 50, codigo);
  }

  /** A chain "not blank, at most `maximo` units, matches the pattern of
      `classe`", whatever its messages, accepts exactly the strings that fit the pattern and length. */
  lemma CadeiaDePadraoSse(regras: seq<Passo<RegraTexto>>, classe: Classe, maximo: nat, s: string)
    requires |regras| == 3
    requires regras[0].regra == NaoVazio && regras[1].regra == ComprimentoMaximo(maximo)
    requires regras[2].regra == CasaPadrao(classe)
    ensures Erros(regras, SatisfazTexto, s) == [] <==> |s| <= maximo && FormaDeRegex(classe, s)
  {
    ErrosVaziosSse(regras, SatisfazTexto, s);
    PadraoValidoSse(classe, s, maximo);
  }

  /** Not blank, at most `maximo` UTF-16 units and matching `^[class]+$`
      together say: at most `maximo` characters of the regex's form. */
  lemma PadraoValidoSse(classe: Classe, s: string, maximo: nat)
    ensures !EmBranco(s) && ComprimentoUtf16(s) <= maximo && CasaRegex(classe, s)
        <==> |s| <= maximo && FormaDeRegex(classe, s)
  {
    CasaRegexSse(classe, s);
    if CasaRegex(classe, s) {
      CasaRegexNaoEmBranco(classe, s);
      CasaRegexComprimento(classe, s);
    }
  }

  /** A description (creation or update) is accepted iff it is not blank
      and measures 3 to 200 UTF-16 units. */
  lemma DescricaoValidaSse(descricao: string)
    ensures Erros(RegrasDescricao, SatisfazTexto, descricao) == []
        <==> !EmBranco(descricao) && 3 <= ComprimentoUtf16(descricao) <= 200
  {
    Erros3(Passo(NaoVazio, MsgDescricaoObrigatoria), Passo(ComprimentoMinimo(3), MsgDescricaoCurta),
           Passo(ComprimentoMaximo(200), MsgDescricaoLonga), SatisfazTexto, descricao);
  }

  /** A balance (creation or update) is accepted iff 0 <= saldo <= 999_999_999_999. */
  lemma SaldoValidoSse(saldo: int)
    ensures Erros(RegrasSaldo, SatisfazNumero, saldo) == [] <==> 0 <= saldo <= SaldoMaximo
  {
    ErrosVaziosSse(RegrasSaldo, SatisfazNumero, saldo);
  }

  /** A deduction quantity is accepted iff 1 <= quantidade <= 999_999. */
  lemma QuantidadeValidaSse(quantidade: int)
    ensures Erros(RegrasQuantidade, SatisfazNumero, quantidade) == [] <==> 1 <= quantidade <= QuantidadeMaxima
  {
    ErrosVaziosSse(RegrasQuantidade, SatisfazNumero, quantidade);
  }

  /** The product code of a deduction is accepted iff it is not blank and
      at most 50 UTF-16 units: no character class is imposed. */
  lemma CodigoBaixaValidoSse(codigo: string)
    ensures Erros(RegrasCodigoBaixa, SatisfazTexto, codigo) == []
        <==> !EmBranco(codigo) && ComprimentoUtf16(codigo) <= 50
  {
    ErrosVaziosSse(RegrasCodigoBaixa, SatisfazTexto, codigo);
  }

  /** An idempotency key is accepted iff it is 1 to 100 characters of a-z,
      A-Z, 0-9, '-' and '_', optionally followed by one line feed. */
  lemma ChaveValidaSse(chave: string)
    ensures Erros(RegrasChave, SatisfazTexto, chave) == []
        <==> |chave| <= 100 && FormaDeRegex(LetrasDigitosHifenSublinhado, chave)
  {
    CadeiaDePadraoSse(RegrasChave, LetrasDigitosHifenSublinhado, 100, chave);
  }

  /** The creation validator passes iff each of its three chains does. */
  lemma CriarProdutoValidoSse(dto: CriarProdutoDTO)
    ensures ValidarCriarProduto(dto) == []
        <==> |dto.codigo| <= 50 && FormaDeRegex(MaiusculasDigitosHifen, dto.codigo)
             && !EmBranco(dto.descricao) && 3 <= ComprimentoUtf16(dto.descricao) <= 200
             && 0 <= dto.saldo as int <= SaldoMaximo
  {
    CodigoCriacaoValidoSse(dto.codigo);
    DescricaoValidaSse(dto.descricao);
    SaldoValidoSse(dto.saldo as int);
  }

  /** The update validator passes iff description and balance do. */
  lemma AtualizarProdutoValidoSse(dto: AtualizarProdutoDTO)
    ensures ValidarAtualizarProduto(dto) == []
        <==> !EmBranco(dto.descricao) && 3 <= ComprimentoUtf16(dto.descricao) <= 200
             && 0 <= dto.saldo as int <= SaldoMaximo
  {
    DescricaoValidaSse(dto.descricao);
    SaldoValidoSse(dto.saldo as int);
  }

  /** The deduction validator passes iff code, quantity and key do. */
  lemma BaixaEstoqueValidaSse(dto: BaixaEstoqueDTO)
    ensures ValidarBaixaEstoque(dto) == []
        <==> !EmBranco(dto.codigoProduto) && ComprimentoUtf16(dto.codigoProduto) <= 50
             && 1 <= dto.quantidade as int <= QuantidadeMaxima
             && |dto.idempotencyKey| <= 100 && FormaDeRegex(LetrasDigitosHifenSublinhado, dto.idempotencyKey)
  {
    CodigoBaixaValidoSse(dto.codigoProduto);
    QuantidadeValidaSse(dto.quantidade as int);
    ChaveValidaSse(dto.idempotencyKey);
  }

  /** A code with a trailing line feed passes the creation validator. */
  lemma CodigoComQuebraDeLinhaAceito()
    ensures ValidarCriarProduto(CriarProdutoDTO("PROD-001\n", "Notebook", 10)) == []
  {
    var c := "PROD-001\n";
    assert TodosNaClasse(MaiusculasDigitosHifen, c[..8]);
    assert FormaDeRegex(MaiusculasDigitosHifen, c);
    var d := "Notebook";
    assert !EhEspaco(d[0]);
    assert TodosNaClasse(LetrasDigitosHifenSublinhado, d);
    AsciiUtf16(LetrasDigitosHifenSublinhado, d);
    CriarProdutoValidoSse(CriarProdutoDTO(c, d, 10));
  }

  /** A key with a trailing line feed passes the deduction validator. */
  lemma ChaveComQuebraDeLinhaAceita()
    ensures ValidarBaixaEstoque(BaixaEstoqueDTO("PROD-001", 3, "k1\n")) == []
  {
    var k := "k1\n";
    assert TodosNaClasse(LetrasDigitosHifenSublinhado, k[..2]);
    assert FormaDeRegex(LetrasDigitosHifenSublinhado, k);
    var c := "PROD-001";
    assert !EhEspaco(c[0]);
    assert TodosNaClasse(MaiusculasDigitosHifen, c);
    AsciiUtf16(MaiusculasDigitosHifen, c);
    BaixaEstoqueValidaSse(BaixaEstoqueDTO(c, 3, k));
  }
}
