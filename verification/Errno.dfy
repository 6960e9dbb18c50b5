// The error numbers that calls return, negated.

module Errno {
  const EINTR: int := 4
  const EIO: int := 5
  const ENXIO: int := 6
  const EAGAIN: int := 11
  const EFAULT: int := 14
  const EINVAL: int := 22
  const ENOSPC: int := 28
}
