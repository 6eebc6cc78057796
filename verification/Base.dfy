/** Types shared by every module. */
module Base {
  datatype Option<+T> = None | Some(value: T)

  /** Milliseconds since the epoch, as `Date.now()` gives them. */
  type Time = int

  type UserId = nat

  const HOUR_MS := 3_600_000
  const DAY_MS := 86_400_000

  datatype Role = CITIZEN | OFFICER | ADMIN

  datatype Actor = Actor(id: UserId, role: Role)
}
