/**
  The Linux error numbers the driver returns (negated) from its entry points. They come from the
  kernel's `errno-base.h` and `errno.h`, which are not part of this model.
*/
module Errno {
  const ENOMEM: int := 12
  const ENODEV: int := 19
  const EINVAL: int := 22
  const ENOTTY: int := 25
  const EBADE: int := 52
  const EOVERFLOW: int := 75
}
