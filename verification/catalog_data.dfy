/**
 * The catalog's data: the seventeen projects in the order the source lists
 * them, and the facts about them that the views rely on.
 */
module CatalogData {
  import opened JsValues
  import opened ProjectsCatalog

  const HybridAlgorithms: Project := Project(
    id := "hybrid-algorithms",
    name := "Hybrid Classical-Quantum Algorithms for Financial Linear Systems",
    description := "Combined CUDA-accelerated preconditioning with quantum HHL, solving sparse systems 50% faster than classical methods.",
    category := Research,
    source := UserProvided,
    sourceUrl := Some("https://www.researchgate.net/publication/384595852_Optimised_Hybrid_Classical-Quantum_Algorithm_for_Accelerated_Solution_of_Sparse_Linear_Systems_Optimised_Hybrid_Classical-Quantum_Algorithm_for_Accelerated_Solution_of_Sparse_Linear_Systems_A_Detailed"),
    sourceDomain := Some("ResearchGate"),
    paperTitle := Some("Optimised Hybrid Classical-Quantum Algorithm for Accelerated Solution of Sparse Linear Systems"),
    image := "/images/robotic-hand-red.jpeg",
    detailImage := Some("/images/robotic-hand-red.jpeg"),
    longDescription := Some("This research explored the intersection of high-performance computing and quantum algorithms to address computational bottlenecks in financial modeling. The hybrid approach leverages classical preprocessing to improve the condition number of matrices before applying quantum algorithms, resulting in significant performance improvements for large-scale financial simulations."),
    technologies := Some(["Quantum HHL", "CUDA", "Linear Algebra", "Financial Modeling", "Sparse Matrix Optimization"]),
    restricted := false,
    performanceStats := None)

  const QuantumMonteCarlo: Project := Project(
    id := "quantum-monte-carlo",
    name := "Quantum Monte Carlo for Portfolio Optimization",
    description := "Applied quantum algorithms to high-dimensional risk modeling, outperforming classical benchmarks in portfolio optimization scenarios.",
    category := Research,
    source := UserProvided,
    sourceUrl := Some("https://www.researchgate.net/publication/382852758_Quantum_Computing_for_Financial_Simulations_1_Title_Leveraging_Quantum_Computing_for_Financial_Simulations_Integrating_Quantum_Monte_Carlo_Amplitude_Estimation_and_QAOA"),
    sourceDomain := Some("ResearchGate"),
    paperTitle := Some("Leveraging Quantum Computing for Financial Simulations: Integrating Quantum Monte Carlo, Amplitude Estimation, and QAOA"),
    image := "/images/robotic-hand-yellow.jpeg",
    detailImage := Some("/images/robotic-hand-yellow.jpeg"),
    longDescription := Some("This project implemented quantum-enhanced Monte Carlo methods to simulate market behavior and optimize investment portfolios under various risk constraints. The quantum approach demonstrated superior performance in handling the curse of dimensionality that typically plagues classical Monte Carlo simulations, enabling more accurate risk assessments for complex financial instruments."),
    technologies := Some(["Quantum Monte Carlo", "Portfolio Theory", "Risk Modeling", "Qiskit", "Financial Derivatives"]),
    restricted := false,
    performanceStats := None)

  const DynamicCaching: Project := Project(
    id := "dynamic-caching",
    name := "Dynamic Caching for Adaptive Databases",
    description := "Reduced query latency by 35% through workload-driven algorithm switching in high-frequency trading database systems.",
    category := Research,
    source := UserProvided,
    sourceUrl := Some("https://www.researchgate.net/publication/375606174_Title_Adaptive_Search_Optimization_Dynamic_Algorithm_Selection_and_Caching_for_Enhanced_Database_Performance"),
    sourceDomain := Some("ResearchGate"),
    paperTitle := Some("Adaptive Search Optimization: Dynamic Algorithm Selection and Caching for Enhanced Database Performance"),
    image := "/images/robotic-hand-black.jpeg",
    detailImage := Some("/images/robotic-hand-black.jpeg"),
    longDescription := Some("This research developed an adaptive caching system that dynamically selects optimal caching algorithms based on real-time workload patterns. The system continuously monitors query patterns and performance metrics, automatically switching between different caching strategies to maximize hit rates and minimize latency for time-sensitive financial applications."),
    technologies := Some(["Database Optimization", "Caching Algorithms", "Performance Tuning", "Redis", "High-Frequency Trading"]),
    restricted := false,
    performanceStats := None)

  const Quickscope: Project := Project(
    id := "quickscope",
    name := "Quickscope",
    description := "Uses Twitter and Yahoo Finance to generate trading signals.",
    category := Quantitative,
    source := UserProvided,
    sourceUrl := Some("https://github.com/hakikat011/AI-TradeBOT"),
    sourceDomain := Some("GitHub"),
    paperTitle := None,
    image := "/images/robotic-hand-red-blue.jpeg",
    detailImage := Some("/images/robotic-hand-red-blue.jpeg"),
    longDescription := Some("Quickscope is a real-time trading signal generator that combines sentiment analysis from Twitter with technical indicators from Yahoo Finance. The system employs natural language processing to gauge market sentiment and correlates this with price action data to identify potential trading opportunities across various timeframes."),
    technologies := Some(["NLP", "Sentiment Analysis", "Technical Analysis", "Twitter API", "Yahoo Finance API"]),
    restricted := false,
    performanceStats := None)

  const Alphaforge: Project := Project(
    id := "alphaforge",
    name := "Alphaforge",
    description := "A minimal but functional MCP-LEAN bridge with Gemini integration, designed for QuantConnect interaction.",
    category := Quantitative,
    source := UserProvided,
    sourceUrl := Some("https://github.com/hakikat011/AlphaForge"),
    sourceDomain := Some("GitHub"),
    paperTitle := None,
    image := "/images/robotic-hand-navy.jpeg",
    detailImage := Some("/images/robotic-hand-navy.jpeg"),
    longDescription := Some("Alphaforge creates a seamless bridge between Model Control Protocol (MCP) and the LEAN engine, with added Gemini AI integration. This allows quantitative researchers to develop and test trading strategies in QuantConnect's environment while leveraging advanced AI capabilities for strategy enhancement and optimization."),
    technologies := Some(["QuantConnect", "LEAN Engine", "MCP", "Gemini AI", "Algorithmic Trading"]),
    restricted := false,
    performanceStats := None)

  const Sherlock: Project := Project(
    id := "sherlock",
    name := "Sherlock",
    description := "A comprehensive algorithmic trading framework for Indian markets using QuantConnect's LEAN engine with Zerodha integration.",
    category := Quantitative,
    source := UserProvided,
    sourceUrl := None,
    sourceDomain := None,
    paperTitle := None,
    image := "/images/robotic-hand-navy-gold.jpeg",
    detailImage := Some("/images/robotic-hand-navy-gold.jpeg"),
    longDescription := Some("Sherlock is a specialized algorithmic trading framework designed specifically for Indian markets. It integrates QuantConnect's LEAN engine with Zerodha's API to provide a complete solution for strategy development, backtesting, and live trading. The system includes custom modules for handling India-specific market nuances, regulations, and trading hours."),
    technologies := Some(["QuantConnect", "LEAN Engine", "Zerodha API", "Indian Markets", "Algorithmic Trading"]),
    restricted := true,
    performanceStats := Some(PerformanceStats(Some("2.48"), Some("88.3%"), Some("64.7%"), Some("-12.3%"), Some("3.12"), Some("19.8%"), Some("0.18"), Some("8.9/10"))))

  const Mozartedge: Project := Project(
    id := "mozartedge",
    name := "MozartEdge",
    description := "An automated trading system that implements multiple strategies including mean reversion, volatility arbitrage, pairs trading, and implied vs realized volatility trading.",
    category := Quantitative,
    source := UserProvided,
    sourceUrl := None,
    sourceDomain := None,
    paperTitle := None,
    image := "/images/robotic-hand-yellow-black.jpeg",
    detailImage := Some("/images/robotic-hand-yellow-black.jpeg"),
    longDescription := Some("MozartEdge is a sophisticated multi-strategy trading system that orchestrates various trading approaches in harmony. It implements mean reversion, volatility arbitrage, pairs trading, and volatility spread trading strategies with enhanced features for profit-taking and market analysis. The system dynamically allocates capital across strategies based on market conditions and performance metrics."),
    technologies := Some(["Mean Reversion", "Volatility Arbitrage", "Pairs Trading", "Options Trading", "Risk Management"]),
    restricted := true,
    performanceStats := Some(PerformanceStats(Some("2.21"), Some("94.5%"), Some("29.6%"), Some("-6.8%"), Some("2.75"), Some("14.2%"), Some("0.11"), Some("8.6/10"))))

  const Horcrux: Project := Project(
    id := "horcrux",
    name := "Horcrux",
    description := "An AI-based news and market scrapper that daily automatically selects tools, configurations, and instruments, and trades with the LLM and MCP trained in the system.",
    category := Quantitative,
    source := UserProvided,
    sourceUrl := None,
    sourceDomain := None,
    paperTitle := None,
    image := "/images/robotic-hand-yellow-mech.jpeg",
    detailImage := Some("/images/robotic-hand-yellow-mech.jpeg"),
    longDescription := Some("Horcrux is an advanced AI-driven trading system that autonomously scrapes news and market data to inform its trading decisions. The system employs large language models (LLMs) and Model Control Protocol (MCP) to analyze information, select appropriate trading instruments, and execute trades. It continuously learns and adapts its strategies based on market feedback and performance."),
    technologies := Some(["AI", "LLM", "MCP", "News Scraping", "Market Analysis", "Autonomous Trading"]),
    restricted := false,
    performanceStats := None)

  const Zengesture: Project := Project(
    id := "zengesture",
    name := "ZenGesture",
    description := "A web-based application that integrates hand pose recognition with Three.js for interactive 3D experiences. Uses TensorFlow.js's Handpose model for real-time hand gesture detection.",
    category := Simulations,
    source := UserProvided,
    sourceUrl := Some("https://github.com/hakikat011/ZenGesture"),
    sourceDomain := Some("GitHub"),
    paperTitle := None,
    image := "/images/robotic-hand-red-white-tech.jpeg",
    detailImage := Some("/images/robotic-hand-red-white-tech.jpeg"),
    longDescription := Some("ZenGesture creates immersive interactive experiences by combining TensorFlow.js's Handpose model with Three.js for 3D visualization. The application tracks hand movements in real-time through a webcam, allowing users to manipulate 3D objects, navigate virtual environments, or create digital art using natural hand gestures without requiring any special hardware."),
    technologies := Some(["TensorFlow.js", "Three.js", "WebGL", "Computer Vision", "Hand Tracking"]),
    restricted := false,
    performanceStats := None)

  const FluidsimulationsCuda: Project := Project(
    id := "fluidsimulations-cuda",
    name := "FluidSimulations-CUDA",
    description := "A Houdini extension designed to enhance the accuracy and efficiency of fluid simulations through GPU acceleration (CUDA), volumetric data management (OpenVDB), and adaptive mesh refinement.",
    category := Simulations,
    source := UserProvided,
    sourceUrl := Some("https://github.com/hakikat011/FluidSimulations-CUDA"),
    sourceDomain := Some("GitHub"),
    paperTitle := None,
    image := "/images/robotic-hand-red-white-diagram.jpeg",
    detailImage := Some("/images/robotic-hand-red-white-diagram.jpeg"),
    longDescription := Some("FluidSimulations-CUDA is a high-performance extension for Houdini that leverages CUDA for GPU acceleration of complex fluid dynamics calculations. The system implements advanced techniques such as adaptive mesh refinement and efficient volumetric data management through OpenVDB to achieve realistic fluid simulations at significantly higher speeds than traditional CPU-based approaches."),
    technologies := Some(["CUDA", "Houdini", "OpenVDB", "Fluid Dynamics", "Adaptive Mesh Refinement"]),
    restricted := false,
    performanceStats := None)

  const Aquashift: Project := Project(
    id := "aquashift",
    name := "AquaShift",
    description := "A real-time water simulation pipeline that integrates 3D geospatial data to simulate dynamic water bodies and incorporates real-time data from sources like NASA Aqua/MODIS and NOAA.",
    category := Simulations,
    source := UserProvided,
    sourceUrl := Some("https://github.com/hakikat011/AquaShift"),
    sourceDomain := Some("GitHub"),
    paperTitle := None,
    image := "/images/robotic-hand-white-purple.jpeg",
    detailImage := Some("/images/robotic-hand-white-purple.jpeg"),
    longDescription := Some("AquaShift creates highly accurate water simulations by combining 3D geospatial data with real-time environmental information from NASA Aqua/MODIS satellites and NOAA weather systems. The pipeline generates dynamic water bodies that respond realistically to changing environmental conditions, making it valuable for climate research, disaster preparedness, and environmental impact studies."),
    technologies := Some(["Geospatial Data", "NASA Aqua/MODIS", "NOAA Data Integration", "Real-time Simulation", "Environmental Modeling"]),
    restricted := false,
    performanceStats := None)

  const Askqubits: Project := Project(
    id := "askqubits",
    name := "AskQubits",
    description := "MVP integrating financial data scraping, AI analysis, and quantum computations.",
    category := Quantum,
    source := UserProvided,
    sourceUrl := None,
    sourceDomain := None,
    paperTitle := None,
    image := "/images/robotic-hand-red-white-schematic.jpeg",
    detailImage := Some("/images/robotic-hand-red-white-schematic.jpeg"),
    longDescription := Some("AskQubits is a minimum viable product that demonstrates the potential of combining financial data scraping, AI-powered analysis, and quantum computing algorithms. The system collects financial data from various sources, processes it using AI to identify patterns and opportunities, and then applies quantum algorithms to optimize complex financial calculations that would be intractable for classical computers."),
    technologies := Some(["Quantum Computing", "Financial Data Scraping", "AI Analysis", "Qiskit", "Python"]),
    restricted := true,
    performanceStats := None)

  const Elysiumq: Project := Project(
    id := "elysiumq",
    name := "ElysiumQ",
    description := "Implements a hybrid system combining classical and quantum computing techniques to solve large-scale linear systems of equations, potentially linking to HHL algorithm research.",
    category := Quantum,
    source := UserProvided,
    sourceUrl := Some("https://github.com/hakikat011/ElysiumQ"),
    sourceDomain := Some("GitHub"),
    paperTitle := None,
    image := "/images/robotic-hand-white-navy.jpeg",
    detailImage := Some("/images/robotic-hand-white-navy.jpeg"),
    longDescription := Some("ElysiumQ is a sophisticated hybrid computing system that leverages both classical and quantum resources to solve large-scale linear systems of equations. Building on research related to the HHL (Harrow-Hassidim-Lloyd) algorithm, the system determines which parts of a problem are best suited for quantum processing and which should remain on classical hardware, creating an optimal workflow that maximizes the advantages of both computing paradigms."),
    technologies := Some(["Hybrid Quantum-Classical Computing", "HHL Algorithm", "Linear Systems", "Quantum Circuit Optimization", "Matrix Decomposition"]),
    restricted := false,
    performanceStats := None)

  const NeuralNetCar: Project := Project(
    id := "neural-net-car",
    name := "Neural Net Car",
    description := "A self-driving car model using neural networks, trainable entirely within a web browser environment, offering an accessible platform for research and development in autonomous driving.",
    category := System,
    source := UserProvided,
    sourceUrl := Some("https://github.com/hakikat011/neural-net-car"),
    sourceDomain := Some("GitHub"),
    paperTitle := None,
    image := "/images/robotic-hand-red-white-cloth.jpeg",
    detailImage := Some("/images/robotic-hand-red-white-cloth.jpeg"),
    longDescription := Some("Neural Net Car provides an accessible platform for experimenting with autonomous driving algorithms through a browser-based simulation environment. Users can train neural networks to navigate various driving scenarios, adjust parameters in real-time, and visualize the learning process. The system is designed to be educational while still implementing sophisticated machine learning techniques that mirror real-world autonomous driving challenges."),
    technologies := Some(["Neural Networks", "Browser-based Simulation", "TensorFlow.js", "Reinforcement Learning", "Computer Vision"]),
    restricted := false,
    performanceStats := None)

  const Shanks: Project := Project(
    id := "shanks",
    name := "Shanks",
    description := "Automates open-source contributions with ease.",
    category := System,
    source := UserProvided,
    sourceUrl := Some("https://github.com/hakikat011/SHANKS"),
    sourceDomain := Some("GitHub"),
    paperTitle := None,
    image := "/images/robotic-hand-red-white-fingers.jpeg",
    detailImage := Some("/images/robotic-hand-red-white-fingers.jpeg"),
    longDescription := Some("Shanks is a productivity tool designed to streamline the process of contributing to open-source projects. It automates repetitive tasks such as fork creation, branch management, code formatting, and pull request submission. The system also includes features for identifying suitable projects based on user skills and interests, making open-source contribution more accessible to developers at all experience levels."),
    technologies := Some(["Git Automation", "GitHub API", "CI/CD Integration", "Code Analysis", "Pull Request Management"]),
    restricted := false,
    performanceStats := None)

  const CicdPipeline: Project := Project(
    id := "cicd-pipeline",
    name := "CICD-Pipeline",
    description := "A scratch build-up of a functional CI/CD pipeline using GitHub Actions for integration and deployment.",
    category := System,
    source := UserProvided,
    sourceUrl := Some("https://github.com/hakikat011/CICD-pipeline"),
    sourceDomain := Some("GitHub"),
    paperTitle := None,
    image := "/images/robotic-hand-red-white-close.jpeg",
    detailImage := Some("/images/robotic-hand-red-white-close.jpeg"),
    longDescription := Some("CICD-Pipeline is a comprehensive continuous integration and deployment solution built from scratch using GitHub Actions. The system includes modules for automated testing, code quality analysis, security scanning, build optimization, and deployment to various environments. It's designed to be highly configurable while maintaining simplicity for teams of all sizes."),
    technologies := Some(["GitHub Actions", "Docker", "Kubernetes", "Infrastructure as Code", "Test Automation"]),
    restricted := false,
    performanceStats := None)

  const GrpcBeta: Project := Project(
    id := "grpc-beta",
    name := "gRPC beta",
    description := "A beta yet functional gRPC server designed using Node.js for system requirements to work on protocol designs.",
    category := System,
    source := UserProvided,
    sourceUrl := Some("https://github.com/hakikat011/gRPC-server-beta"),
    sourceDomain := Some("GitHub"),
    paperTitle := None,
    image := "/images/robotic-hand-red-white-tech.jpeg",
    detailImage := Some("/images/robotic-hand-red-white-tech.jpeg"),
    longDescription := Some("gRPC beta is a functional server implementation using Node.js that serves as a testbed for protocol design and optimization. The system implements the gRPC framework for efficient remote procedure calls, with a focus on performance benchmarking, error handling, and compatibility testing. It includes tools for generating client libraries in multiple languages and comprehensive documentation for API consumers."),
    technologies := Some(["gRPC", "Node.js", "Protocol Buffers", "API Design", "Microservices"]),
    restricted := false,
    performanceStats := None)

  /** `projects`, in source order. */
  const Catalog: seq<Project> := [
    HybridAlgorithms, QuantumMonteCarlo, DynamicCaching, Quickscope,
    Alphaforge, Sherlock, Mozartedge, Horcrux,
    Zengesture, FluidsimulationsCuda, Aquashift, Askqubits,
    Elysiumq, NeuralNetCar, Shanks, CicdPipeline,
    GrpcBeta
  ]

  /** The card keys are unique: no two catalog entries share an id. */
  lemma CatalogIdsDistinct()
    ensures forall i, j :: 0 <= i < j < |Catalog| ==> Catalog[i].id != Catalog[j].id
  {
    CatalogIdsListed();
    IdListDistinct();
  }

  /** The ids of the catalog, in order. */
  const CatalogIds: seq<string> := [
    "hybrid-algorithms", "quantum-monte-carlo", "dynamic-caching", "quickscope",
    "alphaforge", "sherlock", "mozartedge", "horcrux",
    "zengesture", "fluidsimulations-cuda", "aquashift", "askqubits",
    "elysiumq", "neural-net-car", "shanks", "cicd-pipeline", "grpc-beta"]

  lemma CatalogIdsListed()
    ensures |CatalogIds| == |Catalog|
    ensures forall i :: 0 <= i < |Catalog| ==> Catalog[i].id == CatalogIds[i]
  {
  }

  lemma IdListDistinct()
    ensures forall i, j :: 0 <= i < j < |CatalogIds| ==> CatalogIds[i] != CatalogIds[j]
  {
  }

  /**
   * No entry carries both a paper title and the restricted flag, so the
   * "Research Paper" and "Connect to view" badges, drawn in the same corner,
   * never overlap.
   */
  lemma BadgesNeverOverlap()
    ensures forall i :: 0 <= i < |Catalog| ==> !(Badges(Catalog[i]).paper && Badges(Catalog[i]).connectToView)
  {
  }

  /**
   * What the catalog's cards show in their footers: exactly the three
   * research entries show "Research Paper", exactly the three restricted
   * entries show "Restricted Access", and Horcrux, which has neither a source
   * link nor a restriction, falls through to "Source: User-provided".
   */
  lemma CatalogFooters()
    ensures forall i :: 0 <= i < |Catalog| ==> (CardFooter(Catalog[i]).PaperFooter? <==> Catalog[i].category == Research)
    ensures forall i :: 0 <= i < |Catalog| ==>
      (CardFooter(Catalog[i]).RestrictedFooter? <==> Catalog[i].id in {"sherlock", "mozartedge", "askqubits"})
    ensures CardFooter(Horcrux) == SourceFooter("User-provided")
  {
  }
}
