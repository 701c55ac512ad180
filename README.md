# mpishell, modelled in Dafny

mpishell runs one copy of a shell command on every member of an MPI group.
Rank 0 reads the console and broadcasts each input line to the group. Every
member writes the broadcast lines to its own child's standard input. Each
member also prints every line its child writes on standard output or standard
error. The line is tagged with the member's rank and a background colour, so
the operator can tell which member wrote it.

This model covers the sequential logic of that program:

- `decoration.dfy` (module `Decoration`) holds the line decoration. It has the
  rank-to-colour table, the SGR background codes 41, 42, 44 and 45, and the
  removal of one trailing newline. `Decorate` builds the console line: SGR
  (section 8.3.117 of ECMA-48), the rank, `| `, the text, EL (section 8.3.41 of
  ECMA-48), SGR 0, and the newline that `print` adds. `Undecorate` is its
  inverse. Two lemmas prove that each one undoes the other.
- `mpishell.dfy` (module `MpiShell`) holds the member. It has the size guard,
  the choice of relay role, and the three thread bodies written as loops over
  sequences:
  - The MPI broadcast is an ordered log that the members share (`BroadcastLog`).
  - The child's standard input and the console are sequences of lines.
  - A relay can write to its child only the next line already in the
    broadcast log (`WriteToChild`). This is what makes each line reach a child
    only after it has been broadcast, in broadcast order.
  - A ghost event trace describes the relay's actions. The member's invariant
    fixes the trace as a function of the child's input (`RelaySteps`). So the
    trace restates the order that `WriteToChild` enforces; the ghost updates
    in the loops are not what proves it.
- `wrappers.dfy` holds `Option` and `Result`.

Some behaviour is given as parameters. The console input and the pipe contents
are sequences that the loops take as arguments. The rank, the group size and
the broadcast log are constructor arguments.

A note on the size guard: the code checks the group size with a Python
`assert`, which raises `AssertionError`. The model turns that into a `Failure`
result. Python drops `assert` statements when run with `-O`. Without the guard,
a rank of 4 or more reaches the colour lookup, which fails there. `Decorate`
models that second failure as `NoColorForRank`.

## Model

| member | source | states |
|---|---|---|
| `Decoration.SgrCode` | mpishell.py:58-61 | every colour in the table is an SGR background-colour parameter (40..47) |
| `Decoration.BackgroundColor` | mpishell.py:58-62 | the table has an entry exactly for ranks 0..3; the lookup fails for every other rank |
| `Decoration.BackgroundCodesDistinct` | mpishell.py:58-61 | the four ranks get four pairwise-distinct background codes |
| `Decoration.StripNewline` | mpishell.py:63-64 | a line ending in a newline loses exactly that one character; any other line is unchanged |
| `Decoration.StripRemovesOnlyOne` | mpishell.py:63-64 | only one trailing newline is removed (`t + "\n\n"` becomes `t + "\n"`), and the text before it is untouched |
| `Decoration.Decimal` | mpishell.py:65 | the f-string's rendering of an int is a non-empty string of digits with no leading zero, and has one digit exactly below 10 |
| `Decoration.DecimalRoundTrip` | mpishell.py:65 | reading the decimal rendering back gives the number |
| `Decoration.SetBackground` | mpishell.py:65 | the colour prefix is ESC `[`, two digits that read as the colour's SGR code, and `m`: five characters |
| `Decoration.Decorate` | mpishell.py:57-65 | it succeeds exactly for ranks 0..3, and otherwise fails with that rank; the result is 16 characters longer than the stripped line, which it contains at offset 8 |
| `Decoration.UndecorateDecorate` | mpishell.py:57-65 | every decorated line reads back as its rank and the stripped line, so the output identifies which member wrote which line |
| `Decoration.DecorateUndecorate` | mpishell.py:57-65 | every string with the decorated layout is exactly the decoration of the text it shows, for the rank it shows |
| `Decoration.DecorateRankOneExample` | mpishell.py:57-65 | `"ready\n"` from rank 1 is printed as SGR 42 (green), `1`, the separator, `ready`, EL, SGR 0 and a newline |
| `MpiShell.SelectRole` | mpishell.py:31-33 | rank 0 gets the root relay and every other rank gets the follower relay |
| `MpiShell.RelayStepsLength` | mpishell.py:47-55 | relaying n lines takes exactly 2n steps |
| `MpiShell.RelayStepsOrder` | mpishell.py:47-55 | in the trace derived from the child's input, line k is obtained at step 2k and written to the child at step 2k+1 (the order itself is enforced by `WriteToChild`) |
| `MpiShell.RelayStepsAppend` | mpishell.py:47-55 | relaying two batches in turn is the same as relaying their concatenation |
| `MpiShell.BroadcastLog.constructor` | mpishell.py:75 | the communicator starts with nothing broadcast |
| `MpiShell.BroadcastLog.Bcast` | mpishell.py:49 | a broadcast line is delivered after every earlier one |
| `MpiShell.WrappedProcess.constructor` | mpishell.py:13-45 | after the size check, the new member keeps its rank, size and communicator, takes the role its rank selects, and starts with nothing relayed or printed |
| `MpiShell.Start` | mpishell.py:13-33 | start-up fails exactly when the group has more than 4 members, and then creates no member or child; otherwise the member is valid and has the role its rank selects |
| `MpiShell.WrappedProcess.WriteToChild` | mpishell.py:50 | a relay can write to its child only the next broadcast line; the child's input grows by exactly that line |
| `MpiShell.WrappedProcess.RootRelay` | mpishell.py:47-50 | the broadcast log and the child's input both grow by exactly the console lines, in order; each line is broadcast before it is written; the console is unchanged |
| `MpiShell.WrappedProcess.FollowerRelay` | mpishell.py:52-55 | the child's input grows by exactly the broadcast lines not yet relayed, in order, and afterwards equals the whole broadcast log; each line is received before it is written |
| `MpiShell.WrappedProcess.Drain` | mpishell.py:67-69 | every pipe line adds exactly one console line, in pipe order; the earlier console lines stay; each new line is the decoration of its pipe line and reads back as this rank and the stripped text |
| `MpiShell.LockstepRelay` | mpishell.py:47-55 | after the root relays a batch of console input and a follower catches up, both children have been given the same lines in the same order, the broadcast log has grown by exactly the input, and neither console changes |

## Left out

- Process launch is not modelled. This covers `subprocess.Popen` with `shell=True`, the pipe buffering and encoding settings, and the `PMIX_MCA_gds` environment override (mpishell.py:17-28). They are operating-system I/O. The constructor stands for the spawn.
- Threads are not modelled. This covers their creation, the daemon flags and the fact that they are never joined (mpishell.py:30-45). Each thread body is modelled as a sequential loop.
- `MpiShell.WrappedProcess.Drain`: the stdout and stderr drains are not interleaved. The source has no mutual exclusion around `print` (mpishell.py:65), and the two drain threads (mpishell.py:38-45) can mix their output, even between a line's text and its newline. Each console element of the model, which ends with `Trailer` and its newline, is whole only because each drain is modelled alone.
- `MpiShell.WrappedProcess.RootRelay` and `FollowerRelay`: every write to the child's standard input is assumed to succeed, and every console line is assumed to decode. In the source, `process.stdin.write` (mpishell.py:50, 55) raises `BrokenPipeError` once the child has closed its input or exited. A console decode error (mpishell.py:48) raises as well. Either exception ends the relay thread. On the root the failing write comes after the line was broadcast (mpishell.py:49), so the followers' children can get a line the root's child never got. The model has no path on which a member leaves its relay loop.
- `MpiShell.WrappedProcess.FollowerRelay`: the source's `while True` loop never returns. The model stops where the next `bcast` would block forever because the root has broadcast nothing more. The deadlock itself is not modelled.
- The MPI transport (`mpi4py`, `COMM_WORLD`, `bcast`) is a foreign library. It is modelled only as the ordered log `BroadcastLog`.
- `colorama` is a foreign import. Its `AnsiBack` class constants are written in as the integers 41, 42, 44 and 45.
- `wait` and `main` (mpishell.py:71-78) only block on the child and read `sys.argv`. The exit status of the run is therefore not modelled.
- UTF-8 decode failures on the child pipes are not modelled. Neither is Python's newline translation (universal newlines).
- Ranks are natural numbers, because MPI ranks are never negative.
