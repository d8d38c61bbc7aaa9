/**
  The identities the polkit authority hands to an agent, and the
  password-database lookup (`getpwuid_r`) that turns a uid into an
  account record.
 */
module Polkit {
  import opened Wrappers

  type Uid = nat

  /** A polkit identity: a unix user, a unix group or a netgroup. */
  datatype Identity =
    | UnixUser(uid: Uid)
    | UnixGroup(gid: nat)
    | UnixNetgroup(name: string)

  /** The two fields of `struct passwd` that labels use; `pw_gecos` may
      be NULL. */
  datatype Passwd = Passwd(name: string, gecos: Option<string>)

  /** A non-zero error number. */
  type ErrorNumber = n: nat | n > 0 witness 1

  /** The outcome of `getpwuid_r`: a non-zero return value, a zero return
      value with the result pointer left NULL (no such uid), or a zero
      return value with the record. */
  datatype PwLookup =
    | PwError(errno: ErrorNumber)
    | PwNoEntry
    | PwFound(entry: Passwd)
}
