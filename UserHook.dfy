/** The Firestore-to-Postgres transform callback for the `users` collection. */
module UserHook {
  import opened Js

  /** The seven columns of the transformed row. */
  const Columns: set<string> :=
    {"id", "email", "created_at", "updated_at", "user_code", "deleted", "reason_for_deletion"}

  /**
   * The exported transform: a projection of the document with three `||` defaults.
   * The collection name, the record counters and the writer callback are accepted
   * and never used.
   */
  function Transform(collectionName: string, doc: Record, recordCounters: JsValue, writeRecord: JsValue): (r: Record)
    ensures r.Keys == Columns
    // id: the user id when it is truthy, otherwise the document id
    ensures Truthy(Get(doc, "userId")) ==> r["id"] == doc["userId"]
    ensures !Truthy(Get(doc, "userId")) ==> r["id"] == Get(doc, "id")
    // deleted: the flag when truthy, otherwise false
    ensures Truthy(Get(doc, "deleted")) ==> r["deleted"] == doc["deleted"]
    ensures !Truthy(Get(doc, "deleted")) ==> r["deleted"] == Bool(false)
    // reason_for_deletion: the reason when truthy, otherwise null
    ensures Truthy(Get(doc, "reasonForAccountDeletion")) ==> r["reason_for_deletion"] == doc["reasonForAccountDeletion"]
    ensures !Truthy(Get(doc, "reasonForAccountDeletion")) ==> r["reason_for_deletion"] == Null
    // the four copied fields, renamed to snake case
    ensures r["email"] == Get(doc, "email")
    ensures r["created_at"] == Get(doc, "createdAt")
    ensures r["updated_at"] == Get(doc, "updatedAt")
    ensures r["user_code"] == Get(doc, "userCode")
  {
    map[
      "id" := Or(Get(doc, "userId"), Get(doc, "id")),
      "email" := Get(doc, "email"),
      "created_at" := Get(doc, "createdAt"),
      "updated_at" := Get(doc, "updatedAt"),
      "user_code" := Get(doc, "userCode"),
      "deleted" := Or(Get(doc, "deleted"), Bool(false)),
      "reason_for_deletion" := Or(Get(doc, "reasonForAccountDeletion"), Null)
    ]
  }

  /** The fields the transform reads from the document. */
  const ReadFields: set<string> :=
    {"userId", "id", "email", "createdAt", "updatedAt", "userCode", "deleted", "reasonForAccountDeletion"}

  /**
   * The row depends on the document alone, and only on the eight fields it reads:
   * documents that agree on those fields give the same row, whatever else they hold
   * and whatever the other three arguments are.
   */
  lemma DependsOnlyOnReadFields(c1: string, c2: string, d1: Record, d2: Record,
                                n1: JsValue, n2: JsValue, w1: JsValue, w2: JsValue)
    requires forall f :: f in ReadFields ==> Get(d1, f) == Get(d2, f)
    ensures Transform(c1, d1, n1, w1) == Transform(c2, d2, n2, w2)
  {
  }
}
