/** Small datatypes and helpers shared by the modules of the model. */
module Common {
  datatype Option<+T> = None | Some(value: T)

  const MAX_U16: nat := 0xffff
  const MAX_U32: nat := 0xffff_ffff
  const MAX_U64: nat := 0xffff_ffff_ffff_ffff

  function Min(a: int, b: int): int { if a <= b then a else b }

  function Max(a: int, b: int): int { if a >= b then a else b }

  /** The acknowledgement statuses of the wire protocol that the modelled operations return. */
  datatype AckStatus =
    | Ok | Malformed | Unauthorized | Busy | Disabled | BadTarget | Bounds
    | StaleEpoch | QueueFull | InternalError
}
