/** The document store as the views use it: partial updates, queries and
    the normalisation of the documents a snapshot delivers. The backend
    itself is not modelled; an update's effect is the merge that `updateDoc`
    documents. */
module Store {
  import opened Js
  import opened Seqs

  /** The documents of one collection, by id. */
  type Coleccion = map<string, Doc>

  /** A write a view hands to the store. */
  datatype Escritura =
    | Actualizar(coleccion: string, id: Value, campos: Doc)   // updateDoc(doc(db, coleccion, id), campos)
    | Agregar(coleccion: string, registro: Doc)               // addDoc(collection(db, coleccion), registro)
    | Fijar(coleccion: string, clave: string, registro: Doc)   // setDoc(doc(db, coleccion, id), registro)

  /** Effect of `updateDoc`: the named fields are overwritten, every other
      field and every other document is kept; a missing document is an
      error. */
  function AplicarActualizacion(c: Coleccion, id: Value, campos: Doc): (r: Result<Coleccion, string>)
    ensures !(id.Str? && id.s in c) <==> r.Err?
    ensures r.Ok? ==> r.value.Keys == c.Keys
    ensures r.Ok? ==> forall k :: k in campos ==> Get(r.value[id.s], k) == campos[k]
    ensures r.Ok? ==> forall k :: k !in campos ==> Get(r.value[id.s], k) == Get(c[id.s], k)
    ensures r.Ok? ==> forall j :: j in c && j != id.s ==> r.value[j] == c[j]
  {
    if id.Str? && id.s in c then Ok(c[id.s := c[id.s] + campos]) else Err("not-found")
  }

  /** The signed-in account as the auth SDK reports it (`auth.currentUser`):
      its uid and its email, which may be null. */
  datatype UsuarioAuth = UsuarioAuth(uid: string, email: Value)

  /** A rejected SDK call: its `code` and `message`. */
  datatype ErrorSdk = ErrorSdk(code: string, message: string)

  /** A query on the report collection: an optional equality filter on
      `usuarioId` and a descending order on a field. */
  datatype Consulta = Consulta(coleccion: string, usuarioId: Option<string>, ordenDesc: string)

  predicate Coincide(q: Consulta, d: Doc)
  {
    q.usuarioId.Some? ==> Get(d, "usuarioId") == Str(q.usuarioId.value)
  }

  /** A document as a snapshot hands it over: its id and `doc.data()`. */
  datatype DocSnap = DocSnap(id: string, data: Doc)

  /** `{ id: doc.id, ...data }`: the document's own fields follow the id, so
      a stored `id` field takes precedence. */
  function ConId(id: string, data: Doc): Doc
  {
    map["id" := Str(id)] + data
  }

  /** A Firestore GeoPoint as the client SDK exposes it. */
  predicate TieneClave(v: Value, k: string)
  {
    v.Obj? && k in v.fields
  }

  /** Normalisation of one snapshot document: `latitud` becomes its `_lat`
      and `longitud` its `_long` when they are objects carrying those keys;
      then the id is added. */
  function Normalizar(s: DocSnap): Doc
  {
    var lat := Get(s.data, "latitud");
    var lng := Get(s.data, "longitud");
    var d1 := if Truthy(lat) && TieneClave(lat, "_lat") then s.data["latitud" := lat.fields["_lat"]] else s.data;
    var d2 := if Truthy(lng) && TieneClave(lng, "_long") then d1["longitud" := lng.fields["_long"]] else d1;
    ConId(s.id, d2)
  }

  /** What normalisation keeps and what it changes, field by field. */
  lemma NormalizarCampos(s: DocSnap)
    ensures var d := Normalizar(s);
      && Get(d, "id") == (if "id" in s.data then s.data["id"] else Str(s.id))
      && Get(d, "latitud") == (if TieneClave(Get(s.data, "latitud"), "_lat") then Get(s.data, "latitud").fields["_lat"] else Get(s.data, "latitud"))
      && Get(d, "longitud") == (if TieneClave(Get(s.data, "longitud"), "_long") then Get(s.data, "longitud").fields["_long"] else Get(s.data, "longitud"))
      && (forall k :: k != "id" && k != "latitud" && k != "longitud" ==> Get(d, k) == Get(s.data, k))
      && d.Keys == s.data.Keys + {"id"}
  {
  }

  /** Plain numeric coordinates pass through unchanged. */
  lemma NormalizarNumeros(id: string, data: Doc)
    requires "id" !in data
    requires Get(data, "latitud").Num? && Get(data, "longitud").Num?
    ensures Normalizar(DocSnap(id, data)) == ConId(id, data)
  {
  }

  /** The snapshot callback's loop: every document, in snapshot order, is
      normalised and pushed. */
  method NormalizarSnapshot(snap: seq<DocSnap>) returns (r: seq<Doc>)
    ensures |r| == |snap|
    ensures forall i :: 0 <= i < |snap| ==> r[i] == Normalizar(snap[i])
  {
    r := [];
    var i := 0;
    while i < |snap|
      invariant 0 <= i <= |snap|
      invariant |r| == i
      invariant forall j :: 0 <= j < i ==> r[j] == Normalizar(snap[j])
    {
      var data := snap[i].data;
      if "latitud" in data && Truthy(data["latitud"]) && data["latitud"].Obj? && "_lat" in data["latitud"].fields {
        data := data["latitud" := data["latitud"].fields["_lat"]];
      }
      if "longitud" in data && Truthy(data["longitud"]) && data["longitud"].Obj? && "_long" in data["longitud"].fields {
        data := data["longitud" := data["longitud"].fields["_long"]];
      }
      r := r + [ConId(snap[i].id, data)];
      i := i + 1;
    }
  }
}
