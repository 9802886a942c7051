/** Shared vocabulary of the Feather terminal front end: key codes, the Rust
    `Option`/`Result` shapes the views store, the `((title, id), artists)`
    records the content provider returns, and `usize` saturation. */
module Base {

  /** The key codes the handlers distinguish. `Other` stands for every
      remaining crossterm key code; the handlers never look inside it. */
  datatype Key =
    | Char(c: char)
    | Enter
    | Tab
    | Esc
    | Up
    | Down
    | Left
    | Right
    | Backspace
    | Other(code: nat)

  datatype Option<+T> = None | Some(value: T)

  /** Rust's `Result<T, String>`: the provider reports failures as a message. */
  datatype Result<+T> = Ok(value: T) | Err(msg: string)

  /** One provider record `((title, id), artists)`: a playlist in a search
      result, or a song of a playlist once it is added to the song database. */
  datatype Listing = Listing(title: string, id: string, artists: seq<string>)

  /** The largest value of a 64-bit `usize`. */
  const USIZE_MAX: nat := 0xFFFF_FFFF_FFFF_FFFF

  type Usize = n: int | 0 <= n <= USIZE_MAX

  /** A Rust `Vec`: its length is a `usize`. */
  type Vec<T> = s: seq<T> | |s| <= USIZE_MAX witness []

  /** `n.saturating_add(1)` on `usize`. */
  function SatInc(n: Usize): (r: Usize)
    ensures n < USIZE_MAX ==> r == n + 1
    ensures n == USIZE_MAX ==> r == n
  {
    if n < USIZE_MAX then n + 1 else n
  }

  /** `n.saturating_sub(1)` on `usize`. */
  function SatDec(n: Usize): (r: Usize)
    ensures n > 0 ==> r == n - 1
    ensures n == 0 ==> r == 0
  {
    if n > 0 then n - 1 else 0
  }

  /** The list-navigation keys: `j`/Down and `k`/Up. */
  predicate IsDownKey(k: Key) {
    k == Down || k == Char('j')
  }

  predicate IsUpKey(k: Key) {
    k == Up || k == Char('k')
  }
}
