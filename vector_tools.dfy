/**
 * The agent tool that lists the knowledge base's collections as text: the
 * connection is made first, and its failure is reported without listing;
 * an empty store is a friendly message, not an error; otherwise a header
 * with the count and one `- name` line per collection, joined with
 * newlines. The tool never raises.
 */
module VectorTools {
  import opened Wrappers
  import Text
  import VectorQueryTools

  function ConnectionFailed(e: string): string
  {
    "无法连接到知识库（Milvus向量数据库）: " + e + "。请检查配置是否正确。"
  }

  const EmptyKnowledgeBase: string := "知识库已连接，但当前没有任何集合（collection）。知识库为空，可以开始创建集合。"

  /** The header line, without the newline it ends with. */
  function HeaderText(n: nat): string
  {
    "知识库集合列表（共 " + Text.NatToString(n) + " 个）："
  }

  function Item(name: string): string
  {
    "- " + name
  }

  function ListingFailed(e: string): string
  {
    "获取知识库集合列表失败: " + e
  }

  /** One item line per collection, in order. */
  function Items(names: seq<string>): seq<string>
  {
    seq(|names|, i requires 0 <= i < |names| => Item(names[i]))
  }

  /**
   * What the tool returns; `connect` is the error `get_milvus_client`
   * raises, if any.
   */
  function Report<V>(connect: Option<string>, store: VectorQueryTools.Store<V>, database: string): string
  {
    match connect
    case Some(e) => ConnectionFailed(e)
    case None =>
      match VectorQueryTools.ListCollections(store, database)
      case Err(e) => ListingFailed(e)
      case Ok(names) =>
        if names == [] then EmptyKnowledgeBase
        else Text.Join([HeaderText(|names|) + "\n"] + Items(names), "\n")
  }

  /** `list_collections`, the loop appending to `result_parts`. */
  method ListCollections<V>(connect: Option<string>, store: VectorQueryTools.Store<V>, database: string)
    returns (out: string)
    ensures out == Report(connect, store, database)
  {
    if connect.Some? {
      return ConnectionFailed(connect.value);
    }
    var listed := VectorQueryTools.ListCollections(store, database);
    if listed.Err? {
      return ListingFailed(listed.error);
    }
    var names := listed.value;
    if names == [] {
      return EmptyKnowledgeBase;
    }
    var parts := [HeaderText(|names|) + "\n"];
    for i := 0 to |names|
      invariant |parts| == i + 1 && parts[0] == HeaderText(|names|) + "\n"
      invariant forall j :: 0 <= j < i ==> parts[j + 1] == Item(names[j])
    {
      parts := parts + [Item(names[i])];
    }
    assert parts == [HeaderText(|names|) + "\n"] + Items(names);
    out := Text.Join(parts, "\n");
  }

  /**
   * A connection failure is reported whatever the store would list, so
   * nothing is listed; a listing failure is reported, not raised; an empty
   * store gives the fixed message; otherwise, when no name holds a newline,
   * the text's lines are the header with the count, a blank line and one
   * `- name` per collection in order.
   */
  lemma ReportLines<V>(connect: Option<string>, store: VectorQueryTools.Store<V>, database: string,
                       otherStore: VectorQueryTools.Store<V>)
    ensures connect.Some? ==>
              Report(connect, store, database) == ConnectionFailed(connect.value)
              && Report(connect, otherStore, database) == Report(connect, store, database)
    ensures var listed := VectorQueryTools.ListCollections(store, database);
            connect.None? ==>
              && (listed.Err? ==> Report(connect, store, database) == ListingFailed(listed.error))
              && (listed == Ok([]) ==> Report(connect, store, database) == EmptyKnowledgeBase)
              && (listed.Ok? && listed.value != [] && (forall i :: 0 <= i < |listed.value| ==> '\n' !in listed.value[i]) ==>
                    Text.Split(Report(connect, store, database), '\n') ==
                      [HeaderText(|listed.value|), ""] + Items(listed.value))
  {
    var listed := VectorQueryTools.ListCollections(store, database);
    if connect.None? && listed.Ok? && listed.value != [] &&
       (forall i :: 0 <= i < |listed.value| ==> '\n' !in listed.value[i]) {
      var names := listed.value;
      var header := HeaderText(|names|);
      var items := Items(names);
      Text.NatSingleLine(|names|);
      assert [header, ""] + items == [header] + ([""] + items);
      Text.JoinCons(header + "\n", items, "\n");
      Text.JoinCons("", items, "\n");
      Text.JoinCons(header, [""] + items, "\n");
      assert Text.Join([header + "\n"] + items, "\n") == Text.Join([header, ""] + items, "\n");
      forall k | 0 <= k < |[header, ""] + items| ensures '\n' !in ([header, ""] + items)[k] {
        if k >= 2 {
          assert ([header, ""] + items)[k] == "- " + names[k - 2];
        }
      }
      Text.JoinSplit([header, ""] + items, '\n');
    }
  }
}
