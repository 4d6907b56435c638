# go-dockerclient `misc.go`: repository tags and the exec request prefix

This project models two pieces of the Docker client's `misc.go` and proves
properties of them.

- `ParseRepositoryTag` splits an image reference `repository[:tag]` at its
  last colon. The text after that colon is the tag only if it contains no
  `/`. Otherwise the colon belongs to a registry `host:port`, the whole input
  is the repository and the tag is empty. Module `RepositoryTag`
  (`repository_tag.dfy`) models it as a function over strings. `strings.LastIndex`
  becomes the recursive function `LastIndexOf`.
- `Client.Exec` validates its options, sends the create request for the exec
  instance and decodes its id. It then hands the start path and stream wiring
  to the relay goroutine (`hijack2`). Module `Exec` (`exec.dfy`) models this
  straight-line prefix as the function `ExecPrefix`. The HTTP dispatcher
  (`c.do`) and the JSON decoder (`json.Unmarshal`) are function parameters.
  The result records the requests handed to the dispatcher and where the
  prefix ends: an early error, or the start of the relay with its `hijack2`
  arguments.

Go strings are byte strings, while the model indexes characters. The only
separators involved, `:` and `/`, are ASCII and never occur inside a
multi-byte UTF-8 sequence, so both find the same split.

## Model

| member | source | states |
|---|---|---|
| RepositoryTag.LastIndexOf | misc.go:150 | the result is -1 exactly when the character is absent; otherwise it is an index holding the character with no occurrence after it |
| RepositoryTag.ParseRepositoryTag | misc.go:149-158 | no colon gives `(input, "")`; the tag never contains `:` or `/`; every result is either `(input, "")` or a split with `repository + ":" + tag == input` |
| RepositoryTag.ParseJoin | misc.go:150-155 | for every tag with neither `:` nor `/`, parsing `repository + ":" + tag` gives back `(repository, tag)`; so a valid split, when one exists, is unique and is the result |
| RepositoryTag.WholeIffNoSplit | misc.go:149-158 | the repository is the whole input if and only if the input cannot be written as `repository + ":" + tag` with a tag free of `:` and `/` |
| RepositoryTag.SplitLength | misc.go:154-155 | when a split happens, `|repository| + 1 + |tag| == |input|` and the character at the split point is the colon |
| RepositoryTag.SlashAfterLastColon | misc.go:154-157 | if the text after the last colon contains `/`, the result is `(input, "")` although a colon exists |
| RepositoryTag.TrailingColon | misc.go:154-155 | a trailing colon is dropped and gives an empty tag: `repository + ":"` parses to `(repository, "")` |
| RepositoryTag.ExampleWithTag | misc.go:147 | `localhost.localdomain:5000/samalba/hipache:latest` gives `(localhost.localdomain:5000/samalba/hipache, latest)` |
| RepositoryTag.ExampleWithoutTag | misc.go:148 | `localhost.localdomain:5000/samalba/hipache` gives itself and an empty tag |
| RepositoryTag.ExampleColonBeforePath | misc.go:154-157 | `a:b/c` gives `(a:b/c, "")`, because the candidate tag `b/c` contains a separator |
| Exec.CreatePathNamesContainer | misc.go:71-72 | the container name can be read back from the create path `"/containers/" + name + "/exec"` |
| Exec.CreateRequestNamesContainer | misc.go:71-73 | the create request is a POST whose body is the options and whose path names the options' container |
| Exec.StartPathNamesExec | misc.go:97 | the exec id can be read back from the start path `"/exec/" + id + "/start"` |
| Exec.StartPathInjective | misc.go:97 | distinct exec ids give distinct start paths |
| Exec.StartPathOnto | misc.go:97 | every path of the start shape is the start path of the id it names |
| Exec.StartHijack | misc.go:97-103 | the relay's call is a POST on the start path, passes the TTY flag and the caller's input and output streams, and sends standard error to the output stream in TTY mode and to the error stream otherwise |
| Exec.ExecPrefix | misc.go:67-104 | an empty container gives `NoSuchContainer` and no request; otherwise exactly one create request; dispatcher and decoder errors come back unchanged; the missing-id error is returned if and only if both calls succeeded with an empty id; the relay starts if and only if a non-empty id was decoded, and then for that id |
| Exec.StartedRelayNamesItsExec | misc.go:83-103 | whatever the collaborators answer, a started relay has a non-empty id and its hijack path names that id |

## Left out

- `Version` and `Info` (misc.go:21-47): each is one dispatcher call followed by a decode, with no local logic.
- The HTTP dispatcher `c.do` and `json.Unmarshal`: foreign calls. Their outcomes are parameters of `ExecPrefix`. Serialising the options as JSON is not modelled; the request carries the options value itself.
- The concurrent part of `Exec` (misc.go:86-95, 98, 106-115, 136-139): the `promise.Go` goroutine, the `select` on the `hijacked` and `errCh` channels, the deferred channel drain and the deferred `Close`. These concern goroutine ordering and connection ownership. The model stops at the point where the relay is launched.
- `c.hijack2` and `c.monitorTtySize` (misc.go:103, 131): their code is not part of this model. The model only records the `hijack2` arguments.
- The `*os.File` checks, `Fd()`, and the TTY-monitoring decision that depends on them (misc.go:117-134): runtime type inspection and terminal I/O.
- The warnings printed with `fmt.Println` and `fmt.Printf` (misc.go:93, 132): console output.
- Caller streams are opaque handles (`Stream`); only which stream goes where is modelled.
