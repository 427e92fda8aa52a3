/** The record shape the dashboard works on: one row of the gift distribution sheet. */
module Records {

  /** One distribution event, as the CSV parser yields it. Quantities are
      non-negative integers (the parser coerces anything else to 0). */
  datatype BrindeData = BrindeData(
    cliente: string,
    responsavelComercial: string,
    responsavelCS: string,
    brindes: string,
    servico: string,
    cidade: string,
    quantidadeA: nat,
    quantidadeB: nat,
    quantidadeC: nat,
    entregue: bool)

  /** The textual columns a view can group or filter by. */
  datatype Field = Cliente | ResponsavelComercial | ResponsavelCS | Brindes | Servico | Cidade

  function Get(r: BrindeData, f: Field): string {
    match f
    case Cliente => r.cliente
    case ResponsavelComercial => r.responsavelComercial
    case ResponsavelCS => r.responsavelCS
    case Brindes => r.brindes
    case Servico => r.servico
    case Cidade => r.cidade
  }

  /** quantidadeA + quantidadeB + quantidadeC: the weight every view uses for a record. */
  function Total(r: BrindeData): nat {
    r.quantidadeA + r.quantidadeB + r.quantidadeC
  }

  /** Sum of Total over a sequence of records, accumulated left to right like `reduce`. */
  function TotalQuantity(items: seq<BrindeData>): nat {
    if items == [] then 0 else TotalQuantity(items[..|items| - 1]) + Total(items[|items| - 1])
  }

  lemma TotalQuantitySnoc(items: seq<BrindeData>, x: BrindeData)
    ensures TotalQuantity(items + [x]) == TotalQuantity(items) + Total(x)
  {
    assert (items + [x])[..|items|] == items;
  }

  /** The values of one column, in data order (`data.map(item => item.f)`). */
  function Project(data: seq<BrindeData>, f: Field): seq<string>
  {
    seq(|data|, i requires 0 <= i < |data| => Get(data[i], f))
  }
}
