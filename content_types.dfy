/** The constant table of `Content-Type` headers, keyed by a short category name,
    that the router's fallback and the file helpers use. */
module ContentTypes {
  import opened Js
  import opened Http

  const Table: map<string, Headers> := map[
    "html" := ContentType("text/html"),
    "text" := ContentType("text/plain"),
    "js" := ContentType("text/javascript"),
    "jpg" := ContentType("image/jpg"),
    "png" := ContentType("image/png"),
    "css" := ContentType("text/css")
  ]

  /** The six category names the table defines. */
  const Keys: set<string> := {"html", "text", "js", "jpg", "png", "css"}

  /** `contentTypes.html`. */
  const Html: Headers := ContentType("text/html")

  /** `contentTypes[key]`: `undefined` for any name the table does not define. */
  function Lookup(key: string): (r: Option<Headers>)
    ensures r.Some? <==> key in Keys
    ensures r.Some? ==> r.value.Keys == {"Content-Type"}
    ensures key == "html" ==> r == Some(Html)
    ensures key == "text" ==> r == Some(ContentType("text/plain"))
    ensures key == "js" ==> r == Some(ContentType("text/javascript"))
    ensures key == "css" ==> r == Some(ContentType("text/css"))
    ensures key == "jpg" ==> r == Some(ContentType("image/jpg"))
    ensures key == "png" ==> r == Some(ContentType("image/png"))
  {
    Prop(Table, key)
  }

  /** The table has exactly six entries, one for each category name. */
  lemma SixEntries()
    ensures Table.Keys == Keys && |Table| == 6
  {
    assert Table.Keys == Keys;
    assert |Keys| == 6;
  }

  /** Every entry is a one-header map naming only `Content-Type`. */
  lemma SingleHeaderEntries()
    ensures forall k :: k in Table ==> Table[k].Keys == {"Content-Type"} && |Table[k]| == 1
  {
    forall k | k in Table
      ensures Table[k].Keys == {"Content-Type"} && |Table[k]| == 1
    {
      assert |Table[k].Keys| == 1;
    }
  }

  /** The MIME type of the entry `k`. */
  function Mime(k: string): string
    requires k in Table
  {
    Table[k]["Content-Type"]
  }

  /** The images map to `image/jpg` (not the registered `image/jpeg`) and `image/png`. */
  lemma ImageTypes()
    ensures Mime("jpg") == "image/jpg" && Mime("jpg") != "image/jpeg"
    ensures Mime("png") == "image/png"
  {
  }

  /** No two categories share a MIME type, so the table is injective. */
  lemma Injective()
    ensures forall k1, k2 :: k1 in Table && k2 in Table && k1 != k2 ==> Table[k1] != Table[k2]
  {
    forall k1, k2 | k1 in Table && k2 in Table && k1 != k2
      ensures Table[k1] != Table[k2]
    {
      assert Table[k1]["Content-Type"] != Table[k2]["Content-Type"];
    }
  }
}
