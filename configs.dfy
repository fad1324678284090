/** `PageMarginConfig`: the physical layout of a card sheet, every length in
    millimetres. There is no right-margin field: the layout's right bound is
    `pageWidth - marginLeft`. */
module Configs {

  datatype PageMarginConfig = PageMarginConfig(
    pageWidth: real,
    pageHeight: real,
    cardWidth: real,
    cardHeight: real,
    marginTop: real,
    marginLeft: real,
    marginBottom: real,
    horizontalSpacing: real,
    verticalSpacing: real)

  /** `PageMarginConfig::default`: A4 paper and CR80 cards. Every length is
      positive and one card fits on an empty page: 10 + 85.6 <= 200, and the
      top row at 233 is above the bottom margin of 10. */
  function Default(): (cfg: PageMarginConfig)
    ensures PositiveLengths(cfg) && CardFitsOnEmptyPage(cfg)
    ensures RightBound(cfg) == 200.0 && TopRowY(cfg) == 233.0
  {
    PageMarginConfig(
      pageWidth := 210.0, pageHeight := 297.0,
      cardWidth := 85.6, cardHeight := 54.0,
      marginTop := 10.0, marginLeft := 10.0, marginBottom := 10.0,
      horizontalSpacing := 18.0, verticalSpacing := 10.0)
  }

  /** The right bound that a card may not pass. */
  function RightBound(cfg: PageMarginConfig): real {
    cfg.pageWidth - cfg.marginLeft
  }

  /** The y coordinate (bottom edge, measured from the page bottom) of a card
      in the first row of a page: just below the top margin. */
  function TopRowY(cfg: PageMarginConfig): real {
    cfg.pageHeight - cfg.marginTop - cfg.cardHeight
  }

  /** Every length is positive. */
  predicate PositiveLengths(cfg: PageMarginConfig) {
    && cfg.pageWidth > 0.0 && cfg.pageHeight > 0.0
    && cfg.cardWidth > 0.0 && cfg.cardHeight > 0.0
    && cfg.marginTop > 0.0 && cfg.marginLeft > 0.0 && cfg.marginBottom > 0.0
    && cfg.horizontalSpacing > 0.0 && cfg.verticalSpacing > 0.0
  }

  /** One card fits on an empty page: horizontally inside the right bound,
      and the first row does not sit below the bottom margin. */
  predicate CardFitsOnEmptyPage(cfg: PageMarginConfig) {
    cfg.marginLeft + cfg.cardWidth <= RightBound(cfg) && TopRowY(cfg) >= cfg.marginBottom
  }
}
