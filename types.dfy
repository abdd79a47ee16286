/** Record shapes and the fixed checklist catalogue (types.ts). */
module Types {
  import opened Wrappers

  /** The two roles a staff member can have. */
  datatype UserRole = Admin | Collaborator

  /** The two sections of the checklist: opening and closing of the register. */
  datatype Category = Abertura | Fechamento

  /** The password column of an account. JavaScript tells the two ways of
      having none apart: a field that is missing (`undefined`) and a column
      the store returns as `null`. */
  datatype StoredPassword = Undefined | Null | Stored(text: string)

  /** A staff member. */
  datatype User = User(
    id: string,
    name: string,
    email: string,
    role: UserRole,
    active: bool,
    password: StoredPassword)

  /** One step of the catalogue (`label` is a Dafny keyword, so the text is `text`). */
  datatype ChecklistItem = ChecklistItem(id: int, text: string, category: Category)

  /** A submission as held in memory. A record built by the checklist screen
      carries the camelCase fields; a row delivered by the store carries the
      snake_case twins instead. `None` is a field that is absent or null. */
  datatype Submission = Submission(
    id: string,
    userId: Option<string>,
    user_id: Option<string>,
    userName: Option<string>,
    user_name: Option<string>,
    date: string,
    completedItems: Option<seq<int>>,
    completed_items: Option<seq<int>>,
    isFullComplete: Option<bool>,
    is_full_complete: Option<bool>,
    notes: Option<string>)

  // The text of each step, kept in named constants so that proofs about the
  // catalogue do not have to carry the long strings.
  const LABEL_01: string := "1º Ligar o computador"
  const LABEL_02: string := "2º Logar o sistema (Geyfood)"
  const LABEL_03: string := "3º Verificar o WhatsApp"
  const LABEL_04: string := "4º Verificar bobinas, clipes, grampos, maquinetas"
  const LABEL_05: string := "5º Abertura do caixa"
  const LABEL_06: string := "6º Buscar o troco no escritório"
  const LABEL_07: string := "7º Lançar o troco (verificar se o valor está correto)"
  const LABEL_08: string := "8º Lançar no sistema o valor exato"
  const LABEL_09: string := "9º Imprimir / solicitar a comanda"
  const LABEL_10: string := "10º Perguntar ao cliente a forma de pagamento"
  const LABEL_11: string := "11º Finalizar a comanda com a forma de pagamento e o comprovante (cartão / pix); caso seja dinheiro, passar o troco se necessário"
  const LABEL_12: string := "12º Liberar diariamente o pagamento da segurança, mediante recibo assinado por ele e pelo encarregado"
  const LABEL_13: string := "13º Toda e qualquer retirada de valores do caixa deve ser lançada no sistema como despesa e assinada pelo encarregado"
  const LABEL_14: string := "14º Comandas de permutas ou feitas por funcionários como nota devem ser assinadas e enviadas junto ao caixa, assim como todas as notas de saída e entrada de mercadorias"
  const LABEL_15: string := "15º Aplicar desconto de 10% para policiais militares e advogados mediante apresentação da carteirinha"
  const LABEL_16: string := "16º Fechamento: separar comandas de débito, crédito, pix, dinheiro, ticket e convênio; imprimir o relatório das maquinetas; somar individualmente cada forma de pagamento e conferir com o total do relatório"
  const LABEL_17: string := "17º Lançar todos os valores no sistema e imprimir o relatório"
  const LABEL_18: string := "18º Colocar comandas, dinheiro, notas e relatórios na bolsa e guardar na gaveta do escritório"
  const LABEL_19: string := "19º Organizar o caixa, colocar as máquinas para carregar, retirar o lixo e desligar os computadores"
  const LABEL_20: string := "20º Responder todas as mensagens e atender todas as ligações durante o expediente"

  /** The ordered catalogue of register steps. */
  const CHECKLIST_ITEMS: seq<ChecklistItem> := [
    ChecklistItem(1, LABEL_01, Abertura),
    ChecklistItem(2, LABEL_02, Abertura),
    ChecklistItem(3, LABEL_03, Abertura),
    ChecklistItem(4, LABEL_04, Abertura),
    ChecklistItem(5, LABEL_05, Abertura),
    ChecklistItem(6, LABEL_06, Abertura),
    ChecklistItem(7, LABEL_07, Abertura),
    ChecklistItem(8, LABEL_08, Abertura),
    ChecklistItem(9, LABEL_09, Abertura),
    ChecklistItem(10, LABEL_10, Abertura),
    ChecklistItem(11, LABEL_11, Abertura),
    ChecklistItem(12, LABEL_12, Abertura),
    ChecklistItem(13, LABEL_13, Abertura),
    ChecklistItem(14, LABEL_14, Abertura),
    ChecklistItem(15, LABEL_15, Abertura),
    ChecklistItem(16, LABEL_16, Fechamento),
    ChecklistItem(17, LABEL_17, Fechamento),
    ChecklistItem(18, LABEL_18, Fechamento),
    ChecklistItem(19, LABEL_19, Fechamento),
    ChecklistItem(20, LABEL_20, Fechamento)
  ]

  /** True when `id` is the id of some catalogue entry. */
  predicate IsItemId(id: int) {
    exists i :: 0 <= i < |CHECKLIST_ITEMS| && CHECKLIST_ITEMS[i].id == id
  }

  /** The catalogue has 20 entries; entry i has id i+1; ids 1..15 open the
      register and ids 16..20 close it. */
  lemma CatalogueShape()
    ensures |CHECKLIST_ITEMS| == 20
    ensures forall i :: 0 <= i < |CHECKLIST_ITEMS| ==> CHECKLIST_ITEMS[i].id == i + 1
    ensures forall i :: 0 <= i < |CHECKLIST_ITEMS| ==>
              (CHECKLIST_ITEMS[i].category == Abertura <==> CHECKLIST_ITEMS[i].id <= 15)
  {
  }

  /** The catalogue ids are exactly 1..20. */
  lemma ItemIdRange(id: int)
    ensures IsItemId(id) <==> 1 <= id <= 20
  {
    CatalogueShape();
    if 1 <= id <= 20 {
      assert CHECKLIST_ITEMS[id - 1].id == id;
    }
  }
}
