/** The backend collections the stores talk to (`pb.collection(name)`).

    The backend is not part of this model: each request it answers is a total
    function from the request to its outcome, so a store operation can be
    stated for every answer the backend might give. A rejected promise (network
    error, validation error, missing record) is `Failed`. */
module Gateway {
  import opened JsValues

  datatype Outcome<+T> = Ok(value: T) | Failed

  /** The options of `getList(page, perPage, {filter, sort, expand})`;
      an empty string stands for an option that is not passed. */
  datatype ListQuery = ListQuery(page: nat, perPage: nat, filter: string, sort: string, expand: string)

  /** One collection of the backend. `getOne` takes the record id and the
      `expand` option; `delete` answers whether the deletion succeeded. */
  datatype Collection = Collection(
    list: ListQuery -> Outcome<seq<Obj>>,
    getOne: (Value, string) -> Outcome<Obj>,
    create: Obj -> Outcome<Obj>,
    update: (Value, Obj) -> Outcome<Obj>,
    delete: Value -> bool)

  /** Every list call in the stores asks for the first page of 100 records. */
  const FirstPage: nat := 1
  const PageSize: nat := 100

  /** The owner filter `user = "<userId>"`. */
  const OwnerOpen: string := "user = \""

  function OwnerFilter(userId: string): string {
    OwnerOpen + userId + "\""
  }
}
