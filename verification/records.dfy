/** Values shared by the belongs-to accessor and the collaborators it drives:
    the bound child record, parent records, collaborator errors and the
    persistence events the accessor causes. */
module Records {

  /** `None` stands for the JavaScript value `undefined`. */
  datatype Option<+T> = None | Some(value: T)

  /** The non-identity columns of a record, by field name. */
  type Fields = map<string, string>

  /** The child record an accessor is bound to: its other columns, and the
      value of the foreign-key column the relation was registered with. */
  datatype Child = Child(fields: Fields, fk: Option<int>)

  /** A parent record as handed to a caller. `id` is `None` until the target
      model has persisted the record and assigned it an identity. */
  datatype Parent = Parent(id: Option<int>, fields: Fields)

  /** The collaborator calls the accessor makes: the target model's
      `findById`, `build`, `create`, `updateById`, `removeById`, and the
      child's own `save`. */
  datatype Call = FindCall | BuildCall | CreateCall | UpdateCall | RemoveCall | SaveCall

  /** `NotFound` is the target model's "Record not found" rejection; `Failed`
      is any other rejection of a collaborator call, passed on unchanged. */
  datatype Error = NotFound | Failed(call: Call)

  datatype Result<+T> = Ok(value: T) | Err(error: Error)

  /** A write that reached persistence, in the order it completed. */
  datatype Event =
    | Created(id: int, data: Fields)
    | Updated(id: int, changes: Fields)
    | Removed(id: int)
    | ChildSaved(fk: Option<int>)

  /** JavaScript truthiness of a foreign-key value: `undefined` and `0` are
      falsy, every other integer is truthy. */
  predicate Present(fk: Option<int>)
  {
    fk.Some? && fk.value != 0
  }
}
