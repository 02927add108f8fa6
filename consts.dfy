/** Page, card and margin geometry of the page compositor (pixels at 300 DPI). */
module Consts {

  // A4 at 300 DPI
  const A4_WIDTH: nat := 2480
  const A4_HEIGHT: nat := 3508

  // a 63mm x 88mm card at 300 DPI
  const CARD_WIDTH: nat := 744
  const CARD_HEIGHT: nat := 1039

  // a 3x3 grid per page
  const CARDS_PER_ROW: nat := 3
  const CARDS_PER_COL: nat := 3
  const CARDS_PER_PAGE: nat := CARDS_PER_ROW * CARDS_PER_COL

  // `usize` arithmetic: declaring the margins `nat` makes the verifier check
  // that neither subtraction underflows; `/` truncates as Rust's does on
  // non-negative operands.
  const MARGIN_X: nat := (A4_WIDTH - CARD_WIDTH * CARDS_PER_ROW) / 2
  const MARGIN_Y: nat := (A4_HEIGHT - CARD_HEIGHT * CARDS_PER_COL) / 2

  lemma CardsPerPageIsNine()
    ensures CARDS_PER_PAGE == 9
  {
  }

  /** The three columns fit across the page, and the left margin is 124 pixels. */
  lemma HorizontalMargin()
    ensures CARD_WIDTH * CARDS_PER_ROW <= A4_WIDTH
    ensures MARGIN_X == 124
  {
  }

  /** The three rows fit down the page, and the top margin is 195 pixels (half a pixel truncated). */
  lemma VerticalMargin()
    ensures CARD_HEIGHT * CARDS_PER_COL <= A4_HEIGHT
    ensures MARGIN_Y == 195
  {
  }

  /** The grid is centred exactly across the page and to within one pixel down it. */
  lemma GridCentred()
    ensures 2 * MARGIN_X + CARDS_PER_ROW * CARD_WIDTH == A4_WIDTH
    ensures 0 <= A4_HEIGHT - (2 * MARGIN_Y + CARDS_PER_COL * CARD_HEIGHT) <= 1
  {
  }
}
