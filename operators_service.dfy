/** Operator lookup and search over the built-in roster (operatorsService.ts). */
module OperatorsService {
  import opened Collections
  import opened Text
  import opened Types

  /** The seed roster's entries, in source order. */
  const RosterTable: seq<Operator> := [
    Operator("1260", "VALDAIR LAURENTINO", "OPER. PRODUÇÃO MACHARIA III", "MACHARIA"),
    Operator("1325", "GILMAR OTEMBRAIT", "INSPETOR QUALIDADE II", "CONTROLE DE QUALIDADE"),
    Operator("1329", "GEISON CRISTIANO SCHEL", "OPER MAQ MOLD FECH II", "LINHA DE MOLDAGEM E FECHAMENTO"),
    Operator("1363", "FELIPE DALLABONA", "ANALISTA DE PPCP II", "PROGRAMÇAO PROD."),
    Operator("1372", "ADEMAR GESSER", "OP. REBARBAÇÃO (OP. ACAB.)III", "REBOLO PENDULAR"),
    Operator("1377", "CELSO DA SILVA PEREIRA", "TÉCNICO EM SEGURANÇA DO TRABALHO II", "SEG. MEDICINA TRABA."),
    Operator("1382", "SILVERIO BISATTO", "SOLDADOR II", "SOLDA"),
    Operator("1413", "FABRICIO DALLABONA", "ENCAR. DE PROD. ACABAMENTO II", "ACABAMENTO DE PEÇAS (I)"),
    Operator("1422", "JOSE MARINO REICHERT", "OP. REBARBAÇÃO (OP. ACAB.)III", "REBOLO PENDULAR"),
    Operator("1423", "JOSE PEREIRA", "INSPETOR QUALIDADE IV", "CONTROLE DE QUALIDADE"),
    Operator("1429", "EDILSON NEVES MOTTA", "INSPETOR QUALIDADE II", "CONTROLE DE QUALIDADE"),
    Operator("1430", "REGINALDO VALERIANO DOS SANTOS", "OP. COR. CANAL (MAÇARIQ.) III", "CORTE DE CANAL MAÇARICO"),
    Operator("1437", "ANDERSON LUIS ONEDA", "MODELADOR III", "MODELARIA"),
    Operator("1446", "JOAO CARLOS VANELLI", "OP. COR. CANAL (MAÇARIQ.) III", "CORTE DE CANAL MAÇARICO"),
    Operator("1463", "RAFAEL CLEMENTE ESPIG", "OPER. PRODUÇÃO MACHARIA III", "MACHARIA"),
    Operator("1475", "MARCELO RAMOS", "MECÂNICO MANUTENÇÃO III", "MANUTENÇAO MECANICA"),
    Operator("1478", "ADENOR REICHELT", "OPER. DE FORNO A INDUÇÃO III", "FUSAO"),
    Operator("1479", "ADELSIO REICHELT", "REFRATARISTA II", "FUSAO"),
    Operator("1488", "EDIVAN VELOZO", "INSPETOR QUALIDADE II", "CONTROLE DE QUALIDADE"),
    Operator("1493", "ROBERTO CARLOS PEREIRA", "OPER. PRODUÇÃO MACHARIA III", "MACHARIA"),
    Operator("1501", "EDELBERTO CARLOS GESSER", "OPERADOR PONTE ROLANTE II", "ACABAMENTO DE PEÇAS"),
    Operator("1508", "OSNI REICHERT", "INSPETOR QUALIDADE II", "CONTROLE DE QUALIDADE"),
    Operator("1514", "MAURICIO MELCHIORETTO", "ANALISTA DE PROCESSOS TÉCNICO I", "DEP. TÉCNICO"),
    Operator("1200", "MABEL KRISTINE BRAMORSKI LONGEN", "MEDICO(A) TRABALHO", "SEG. MEDICINA TRABA."),
    Operator("1536", "VALDEMIRO LEPINSKI", "MECÂNICO MANUTENÇÃO II", "MANUTENÇAO MECANICA"),
    Operator("1543", "GUILHERME LEMKE", "SUPERVISOR DE USINAGEM", "USINAGEM (I)"),
    Operator("1546", "EDERSON SCABURRI", "LIDER DA ELETROMECANICA", "MANUTENÇAO ELETRICA"),
    Operator("1549", "SAMUEL FELIPE KREHNKE", "MECÂNICO MANUTENÇÃO II", "MANUTENÇAO MECANICA"),
    Operator("1552", "JAIME LEPINSKI", "TORNEIRO MEC. (OPER. USI.)I", "USINAGEM"),
    Operator("1567", "ALANO COSTA BATISTA", "OPERADOR DE FORNO A INDUÇÃO II", "FUSAO"),
    Operator("1575", "FABIANO SIGNORELLI", "OPER.TRATAMENTO TÉRMICO I", "TRATAMENTO TÉRMICO"),
    Operator("1592", "ANDERSON DA CUNHA", "SOLDADOR II", "SOLDA"),
    Operator("1607", "JOCEMAR ROSA DOS SANTOS", "OPER. PRODUÇÃO MACHARIA III", "MOLDAGEM COLDBOX"),
    Operator("1618", "ROSALVO MACHADO", "SOLDADOR III", "SOLDA"),
    Operator("1638", "LEONARDO SCHUTZ SCHAUSS", "OP. DE ESCARFAGEM (OP. ACB)II", "ESCARFAGEM"),
    Operator("1694", "LUIS ANTONIO PEREIRA DO NASCIMENTO", "ALMOXARIFE DE MODELOS I", "PROGRAMÇAO PROD."),
    Operator("1739", "EDJALMA RICARDO MARIANO", "OPER. PRODUÇÃO MACHARIA III", "MACHARIA"),
    Operator("1757", "WALLACE ALVES DE JESUS", "OPER PROD MOLD FECH III", "LINHA DE MOLDAGEM E FECHAMENTO"),
    Operator("1760", "ELOIR RAMALHO", "INSP. QUALIDADE DIMENSIONAL II", "CONTROLE DE QUALIDADE DIMENSIONAL"),
    Operator("1776", "JOAO CARLOS RODRIGUES", "OPER. DE JATO (OPER. ACAB.)II", "ROTOJATO"),
    Operator("1782", "ALTOIR FERNANDES DA SILVA", "OPER. PRODUÇÃO MACHARIA III", "MOLDAGEM COLDBOX")
  ]

  /** `operatorsList`. It is taken as a slice of the table so that the
      verifier reasons about the roster symbolically instead of evaluating
      sorts and searches over the 41 literal entries. */
  const OperatorsList: seq<Operator> := RosterTable[..|RosterTable|]

  /** Ascending by name under the model's `localeCompare`. */
  ghost predicate SortedByName(s: seq<Operator>) {
    forall i, j :: 0 <= i < j < |s| ==> NameLe(s[i].name, s[j].name)
  }

  /** Places `x` in front of the first entry whose name is not below it; an
      entry inserted this way stays ahead of later entries with the same name. */
  function InsertByName(x: Operator, s: seq<Operator>): seq<Operator> {
    if s == [] then [x]
    else if NameLe(x.name, s[0].name) then [x] + s
    else [s[0]] + InsertByName(x, s[1..])
  }

  lemma {:induction false} InsertByNameCount(x: Operator, s: seq<Operator>)
    ensures multiset(InsertByName(x, s)) == multiset(s) + multiset{x}
  {
    if s != [] && !NameLe(x.name, s[0].name) {
      InsertByNameCount(x, s[1..]);
      assert s == [s[0]] + s[1..];
    }
  }

  /** A name at or below `x` and below every entry of `s` stays below every
      entry after the insertion. */
  lemma LowerBoundSurvivesInsert(lo: string, x: Operator, s: seq<Operator>)
    requires NameLe(lo, x.name)
    requires forall m :: 0 <= m < |s| ==> NameLe(lo, s[m].name)
    ensures forall k :: 0 <= k < |InsertByName(x, s)| ==> NameLe(lo, InsertByName(x, s)[k].name)
  {
    var r := InsertByName(x, s);
    InsertByNameCount(x, s);
    forall k | 0 <= k < |r| ensures NameLe(lo, r[k].name) {
      assert r[k] in multiset(r);
      if r[k] != x {
        assert r[k] in s;
      }
    }
  }

  lemma {:induction false} InsertByNameSorted(x: Operator, s: seq<Operator>)
    requires SortedByName(s)
    ensures SortedByName(InsertByName(x, s))
    ensures multiset(InsertByName(x, s)) == multiset(s) + multiset{x}
  {
    InsertByNameCount(x, s);
    if s == [] {
    } else if NameLe(x.name, s[0].name) {
      var r := [x] + s;
      forall i, j | 0 <= i < j < |r| ensures NameLe(r[i].name, r[j].name) {
        if i == 0 && j > 1 {
          NameLeTransitive(x.name, s[0].name, s[j - 1].name);
        }
      }
    } else {
      NameLeTotal(x.name, s[0].name);
      InsertByNameSorted(x, s[1..]);
      var rest := InsertByName(x, s[1..]);
      LowerBoundSurvivesInsert(s[0].name, x, s[1..]);
      var r := [s[0]] + rest;
      forall i, j | 0 <= i < j < |r| ensures NameLe(r[i].name, r[j].name) {
        if i > 0 {
          assert r[i] == rest[i - 1] && r[j] == rest[j - 1];
        }
      }
    }
  }

  /** `xs.sort((a, b) => a.name.localeCompare(b.name))` on a copy: a stable
      insertion sort. */
  function SortByName(xs: seq<Operator>): (r: seq<Operator>)
    ensures SortedByName(r)
    ensures multiset(r) == multiset(xs)
  {
    if xs == [] then []
    else
      var rest := SortByName(xs[1..]);
      InsertHeadSorted(xs, rest);
      InsertByName(xs[0], rest)
  }

  /** One step of the sort: inserting the head into the sorted tail sorts the
      whole sequence. */
  lemma InsertHeadSorted(xs: seq<Operator>, rest: seq<Operator>)
    requires xs != [] && SortedByName(rest) && multiset(rest) == multiset(xs[1..])
    ensures SortedByName(InsertByName(xs[0], rest))
    ensures multiset(InsertByName(xs[0], rest)) == multiset(xs)
  {
    InsertByNameSorted(xs[0], rest);
    assert xs == [xs[0]] + xs[1..];
  }

  /** `getOperators`: the whole roster, ordered by name. */
  function GetOperators(): (r: seq<Operator>)
    ensures SortedByName(r)
    ensures multiset(r) == multiset(OperatorsList)
  {
    SortByName(OperatorsList)
  }

  /** Finds the first entry of `ops` with the given id. */
  function FindOperator(ops: seq<Operator>, id: string): (r: Option<Operator>)
    ensures r.None? <==> forall i :: 0 <= i < |ops| ==> ops[i].id != id
    ensures r.Some? ==> exists i :: 0 <= i < |ops| && ops[i] == r.value && r.value.id == id
                                    && forall j :: 0 <= j < i ==> ops[j].id != id
  {
    var r := FindFirst(ops, (o: Operator) => o.id == id);
    if r.Some? then
      var i := FirstIndex(ops, (o: Operator) => o.id == id);
      assert ops[i] == r.value && forall j :: 0 <= j < i ==> ops[j].id != id;
      r
    else r
  }

  /** `getOperatorById`: the first roster entry with that id. */
  function GetOperatorById(id: string): (r: Option<Operator>)
    ensures r.None? <==> forall i :: 0 <= i < |OperatorsList| ==> OperatorsList[i].id != id
    ensures r.Some? ==> exists i :: 0 <= i < |OperatorsList| && OperatorsList[i] == r.value && r.value.id == id
                                    && forall j :: 0 <= j < i ==> OperatorsList[j].id != id
  {
    FindOperator(OperatorsList, id)
  }

  /** `!query || query.trim() === ''`. */
  predicate IsBlank(query: string) {
    Trim(query) == []
  }

  /** The search term: `query.toLowerCase().trim()`. */
  function SearchTerm(query: string): string {
    Trim(Lower(query))
  }

  /** The operator's lower-cased name, id, sector or role includes `term`.
      The empty term matches everyone. */
  predicate MatchesTerm(o: Operator, term: string)
    ensures term == [] ==> MatchesTerm(o, term)
  {
    Contains(Lower(o.name), term) || Contains(Lower(o.id), term)
    || Contains(Lower(o.sector), term) || Contains(Lower(o.role), term)
  }

  /** A term longer than every field of an operator matches no one. */
  lemma LongTermMatchesNothing(o: Operator, term: string)
    requires |term| > |o.name| && |term| > |o.id| && |term| > |o.sector| && |term| > |o.role|
    ensures !MatchesTerm(o, term)
  {
    LongerNotContained(Lower(o.name), term);
    LongerNotContained(Lower(o.id), term);
    LongerNotContained(Lower(o.sector), term);
    LongerNotContained(Lower(o.role), term);
  }

  /** `ops.filter(o => MatchesTerm(o, term))`. */
  function KeepMatching(ops: seq<Operator>, term: string): (r: seq<Operator>)
    ensures forall o :: multiset(r)[o] == if MatchesTerm(o, term) then multiset(ops)[o] else 0
  {
    var kept := Filter(ops, (o: Operator) => MatchesTerm(o, term));
    forall o ensures multiset(kept)[o] == if MatchesTerm(o, term) then multiset(ops)[o] else 0 {
      FilterCount(ops, (o: Operator) => MatchesTerm(o, term), o);
    }
    kept
  }

  /** The search of `searchOperators`, over a given roster. */
  function SearchIn(ops: seq<Operator>, query: string): (r: seq<Operator>)
    ensures SortedByName(r)
    ensures IsBlank(query) ==> multiset(r) == multiset(ops)
    ensures !IsBlank(query) ==>
      forall o :: multiset(r)[o] == if MatchesTerm(o, SearchTerm(query)) then multiset(ops)[o] else 0
  {
    if IsBlank(query) then SortByName(ops)
    else SortByName(KeepMatching(ops, SearchTerm(query)))
  }

  /** `searchOperators`: the search over the built-in roster. A blank query
      lists the roster exactly as `getOperators` does; what a non-blank query
      keeps is stated, for any roster, by `SearchIn` and `SearchInMembers`. */
  function SearchOperators(query: string): (r: seq<Operator>)
    ensures SortedByName(r)
    ensures IsBlank(query) ==> r == GetOperators()
  {
    SearchIn(OperatorsList, query)
  }

  /** Soundness and completeness of a non-blank search: every result matches
      and comes from the roster, and every matching roster entry is listed as
      often as the roster holds it. */
  lemma SearchInMembers(ops: seq<Operator>, query: string)
    ensures !IsBlank(query) ==> forall o :: o in SearchIn(ops, query) ==> o in ops && MatchesTerm(o, SearchTerm(query))
    ensures !IsBlank(query) ==> forall i :: 0 <= i < |ops| && MatchesTerm(ops[i], SearchTerm(query))
                                  ==> multiset(SearchIn(ops, query))[ops[i]] == multiset(ops)[ops[i]]
  {
    var r := SearchIn(ops, query);
    if !IsBlank(query) {
      forall o | o in r ensures o in ops && MatchesTerm(o, SearchTerm(query)) {
        assert multiset(r)[o] > 0;
      }
    }
  }

  /** Surrounding white space in the query changes nothing. */
  lemma SearchIgnoresSurroundingWhitespace(ops: seq<Operator>, query: string)
    ensures SearchIn(ops, Trim(query)) == SearchIn(ops, query)
  {
    TrimIdempotent(query);
    TrimLowerCommute(query);
    TrimIdempotent(Lower(query));
    assert SearchTerm(Trim(query)) == SearchTerm(query);
  }

  /** `searchOperators(q)` and `searchOperators(q.trim())` agree. */
  lemma SearchOperatorsTrimmed(query: string)
    ensures SearchOperators(Trim(query)) == SearchOperators(query)
  {
    SearchIgnoresSurroundingWhitespace(OperatorsList, query);
  }
}
