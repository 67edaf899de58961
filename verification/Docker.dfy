/**
 The container daemon as the job service sees it.  It is more obliging than the real one:
 it removes whatever it is asked to remove, running or in use, so that no property of the
 service can rest on the daemon saying no.
 */
module Docker {

  datatype Status = Created | Running | Exited(code: int, finishedAt: int)

  datatype Container = Container(status: Status, mounts: seq<string>)

  datatype Daemon = Daemon(containers: map<string, Container>, volumes: set<string>)

  /** How a call goes: done, refused without effect, or done with the answer lost (the
      request's deadline passed), which the caller sees as an error. */
  datatype Reply = Done | Refused | Lost

  /** What a finish time reads as for a container that has not finished: the year 1. */
  const ZERO_TIME: int := -62_135_596_800_000

  function RunningJobs(d: Daemon): set<string> {
    set id | id in d.containers && d.containers[id].status.Running?
  }

  function FinishedAt(status: Status): int {
    if status.Exited? then status.finishedAt else ZERO_TIME
  }

  function ExitCode(status: Status): int {
    if status.Exited? then status.code else 0
  }

  /** A container with its volume; the volume comes into being with it. */
  function CreateContainer(d: Daemon, id: string, volume: string, reply: Reply): (r: (Daemon, bool)) {
    if reply.Refused? then (d, false)
    else (Daemon(d.containers[id := Container(Created, [volume])], d.volumes + {volume}), reply.Done?)
  }

  function StartContainer(d: Daemon, id: string, reply: Reply): (r: (Daemon, bool)) {
    if reply.Refused? || id !in d.containers then (d, false)
    else (d.(containers := d.containers[id := d.containers[id].(status := Running)]), reply.Done?)
  }

  /** Stopping waits for the container; one that is not running is left as it is. */
  function StopContainer(d: Daemon, id: string, code: int, now: int, reply: Reply): (r: (Daemon, bool)) {
    if reply.Refused? || id !in d.containers then (d, false)
    else if d.containers[id].status.Running?
    then (d.(containers := d.containers[id := d.containers[id].(status := Exited(code, now))]), reply.Done?)
    else (d, reply.Done?)
  }

  function RemoveContainer(d: Daemon, id: string, reply: Reply): (r: (Daemon, bool)) {
    if reply.Refused? || id !in d.containers then (d, false)
    else (d.(containers := d.containers - {id}), reply.Done?)
  }

  function RemoveVolume(d: Daemon, volume: string, reply: Reply): (r: (Daemon, bool)) {
    if reply.Refused? || volume !in d.volumes then (d, false)
    else (d.(volumes := d.volumes - {volume}), reply.Done?)
  }
}
