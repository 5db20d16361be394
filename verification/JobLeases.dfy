/** The exclusive, non-blocking lock behind a job lease. */
module JobLeases {
  import opened Results
  import Recovery

  datatype LeaseError = InvalidName | AlreadyHeld

  /** The locks of one data directory: which descriptor holds which name. Lease files are never unlinked. */
  class LeaseDirectory {
    var locks: map<string, int>
    var nextFd: nat

    constructor ()
      ensures locks == map[] && nextFd == 0
    {
      locks, nextFd := map[], 0;
    }

    ghost predicate Valid()
      reads this
    {
      && (forall name :: name in locks ==> Recovery.IsJobName(name) && 0 <= locks[name] < nextFd)
      && (forall a, b :: a in locks && b in locks && locks[a] == locks[b] ==> a == b)
    }
  }

  class JobLease {
    const directory: LeaseDirectory
    const name: string
    var fd: int

    constructor (directory: LeaseDirectory, name: string, fd: int)
      ensures this.directory == directory && this.name == name && this.fd == fd
    {
      this.directory, this.name, this.fd := directory, name, fd;
    }

    ghost predicate Held()
      reads this, directory
    {
      fd >= 0 && name in directory.locks && directory.locks[name] == fd
    }

    /** Closing releases this lease's own lock; closing again touches nobody else's. */
    method Close()
      requires fd >= 0 ==> Held()
      requires directory.Valid()
      modifies this`fd, directory`locks
      ensures fd == -1 && !Held() && directory.Valid()
      ensures directory.locks == if old(fd) >= 0 then old(directory.locks) - {name} else old(directory.locks)
    {
      if fd >= 0 {
        directory.locks := directory.locks - {name};
      }
      fd := -1;
    }
  }

  /** A lease is granted exactly for a valid name that nobody holds; a refusal changes no lock. */
  method Acquire(directory: LeaseDirectory, name: string) returns (r: Result<JobLease, LeaseError>)
    requires directory.Valid()
    modifies directory
    ensures directory.Valid()
    ensures r.Failure? && r.error == InvalidName <==> !Recovery.IsJobName(name)
    ensures r.Failure? && r.error == AlreadyHeld <==> Recovery.IsJobName(name) && name in old(directory.locks)
    ensures r.Failure? ==> directory.locks == old(directory.locks)
    ensures r.Success? ==> fresh(r.value) && r.value.directory == directory && r.value.name == name && r.value.Held()
    ensures r.Success? ==> directory.locks == old(directory.locks)[name := r.value.fd]
  {
    if !Recovery.IsJobName(name) {
      return Failure(InvalidName);
    }
    var fd := directory.nextFd;
    directory.nextFd := directory.nextFd + 1;
    if name in directory.locks {
      return Failure(AlreadyHeld);
    }
    directory.locks := directory.locks[name := fd];
    var lease := new JobLease(directory, name, fd);
    return Success(lease);
  }
}
