/** The template filters of core/templatetags/pedido_tags.py. */
module PedidoTags {
  import opened Models

  /** The colour table of the `status_color` filter, keyed by stored status string. */
  const StatusColors: map<string, string> := map[
    "pendente" := "warning",
    "aceito" := "success",
    "concluido" := "primary",
    "recusado" := "danger"
  ]

  /** The colour given to any status the table does not list. */
  const DefaultColor: string := "secondary"

  /**
   * The badge colour of a status string. Every string gets a colour; the
   * default colour is given exactly to the strings the table does not list.
   */
  function StatusColor(status: string): (color: string)
    ensures status in StatusColors ==> color == StatusColors[status]
    ensures color == DefaultColor <==> status !in StatusColors
    ensures color in {"warning", "success", "primary", "danger", DefaultColor}
  {
    if status in StatusColors then StatusColors[status] else DefaultColor
  }

  /** The colour of each status of the order enumeration; `entregue` is not in the table. */
  lemma StatusColorOfStatus(s: Status)
    ensures StatusColor(Code(s)) == match s
      case Pendente => "warning"
      case Aceito => "success"
      case Recusado => "danger"
      case Entregue => DefaultColor
  {
  }

  /** The `get_item` filter: the stored count for `key`, or 0 when the key is absent. */
  function GetItem<K>(counts: map<K, int>, key: K): (r: int)
    ensures key in counts ==> r == counts[key]
    ensures key !in counts ==> r == 0
  {
    if key in counts then counts[key] else 0
  }
}
