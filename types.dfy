/** Entities shared by every screen of the receipt scanner (types.ts), plus the
    small browser values (an optional field, a picked file) the screens pass around. */
module Types {

  /** An optional value: a JavaScript field that may be missing. */
  datatype Option<+T> = None | Some(value: T) {
    function GetOr(default: T): T {
      match this
      case Some(v) => v
      case None => default
    }
  }

  /** A committed expense record. Money is held in integer cents and the
      timestamp in epoch milliseconds. The category is a plain string: nothing
      in the record type ties it to Categories(). */
  datatype Receipt = Receipt(
    id: string,
    date: string,
    merchant: string,
    total: int,
    category: string,
    imageUrl: string,
    timestamp: int)

  /** The three screens of the application. */
  datatype View = History | Camera | Edit

  /** `Partial<Receipt>`: every field of a Receipt, each possibly missing.
      Extraction results and the in-flight scan have this type. */
  datatype Draft = Draft(
    id: Option<string>,
    date: Option<string>,
    merchant: Option<string>,
    total: Option<int>,
    category: Option<string>,
    imageUrl: Option<string>,
    timestamp: Option<int>)

  /** A receipt seen as a partial receipt (every field present). */
  function AsDraft(r: Receipt): Draft {
    Draft(Some(r.id), Some(r.date), Some(r.merchant), Some(r.total),
          Some(r.category), Some(r.imageUrl), Some(r.timestamp))
  }

  /** The fixed list of categories offered by the edit form, in display order. */
  function Categories(): (c: seq<string>)
    ensures |c| == 7
    ensures forall i, j :: 0 <= i < j < |c| ==> c[i] != c[j]
    ensures c[6] == "Other" && "Other" in c
  {
    ["Food & Dining", "Shopping", "Travel", "Health", "Utilities", "Entertainment", "Other"]
  }

  /** A browser File, reduced to what the application looks at. */
  datatype File = File(name: string, mimeType: string)

  /** `file.type.startsWith('image/')`. */
  predicate IsImageFile(f: File)
    ensures IsImageFile(f) <==> |f.mimeType| >= 6 && f.mimeType[..6] == "image/"
  {
    "image/" <= f.mimeType
  }
}
